/** What each compiled instruction does to the registers, and what the
    `execute` loop guarantees when it stops. */
module InstructionFacts {
  import opened Wrappers
  import opened LispParser
  import opened Instructions

  /** The register an assignment-like instruction writes, if any. */
  function Target(ins: Instr): Option<nat> {
    match ins
    case AssignRegister(t, _) => Some(t)
    case AssignConstant(t, _) => Some(t)
    case AssignLabel(t, _) => Some(t)
    case AssignOp(t, _, _) => Some(t)
    case Test(_, _) => Some(FLAG)
    case _ => None
  }

  predicate Jumps(ins: Instr) {
    ins.Branch? || ins.GotoLabel? || ins.GotoRegister?
  }

  /** An instruction that neither jumps nor writes `pc` leaves `pc` as the
      old list without its head, whenever it does not raise; Save and
      Restore always raise. */
  lemma NonJumpAdvances(ins: Instr, regs: seq<Value>, labels: map<string, seq<Instr>>)
    requires |regs| >= 2 && WfInstr(ins, |regs|)
    requires regs[PC].Code? && regs[PC].insts != []
    requires !Jumps(ins) && Target(ins) != Some(PC)
    ensures var eff := Step(ins, regs, labels);
      (eff.err.None? ==> eff.regs[PC] == Code(regs[PC].insts[1..])) &&
      (eff.err.Some? ==> eff.regs == regs) &&
      ((ins.Save? || ins.Restore?) ==> eff.err.Some?)
  {
  }

  /** `assign t (reg s)`: t gets s's contents, `pc` advances, nothing else changes. */
  lemma AssignRegisterEffect(t: nat, s: nat, regs: seq<Value>, labels: map<string, seq<Instr>>)
    requires |regs| >= 2 && t < |regs| && s < |regs| && t != PC
    requires regs[PC].Code? && regs[PC].insts != []
    ensures Step(AssignRegister(t, s), regs, labels) == Effect(regs[t := regs[s]][PC := Code(regs[PC].insts[1..])], None)
  {
  }

  /** `assign t (const c)` stores the literal's value. */
  lemma AssignConstantEffect(t: nat, c: Constant, regs: seq<Value>, labels: map<string, seq<Instr>>)
    requires |regs| >= 2 && t < |regs| && t != PC
    requires regs[PC].Code? && regs[PC].insts != []
    ensures Step(AssignConstant(t, c), regs, labels) == Effect(regs[t := ConstValue(c)][PC := Code(regs[PC].insts[1..])], None)
  {
  }

  /** `test`: the op's result goes to `flag`, or its exception leaves all
      registers as they were. */
  lemma TestEffect(op: OpKind, args: seq<Prim>, regs: seq<Value>, labels: map<string, seq<Instr>>)
    requires |regs| >= 2 && WfArgs(args, |regs|)
    requires regs[PC].Code? && regs[PC].insts != []
    ensures var eff := Step(Test(op, args), regs, labels);
      match EvalOp(op, args, regs, labels)
      case Success(v) => eff == Effect(regs[FLAG := v][PC := Code(regs[PC].insts[1..])], None)
      case Failure(e) => eff == Effect(regs, Some(e))
  {
  }

  /** `branch`: with a false flag it only advances; with a true one `pc`
      becomes the target list without its first instruction. */
  lemma BranchEffect(dest: seq<Instr>, regs: seq<Value>, labels: map<string, seq<Instr>>)
    requires |regs| >= 2 && WfInstr(Branch(dest), |regs|)
    requires regs[PC].Code? && regs[PC].insts != []
    ensures Step(Branch(dest), regs, labels).err.None?
    ensures !Truthy(regs[FLAG]) ==> Step(Branch(dest), regs, labels).regs == regs[PC := Code(regs[PC].insts[1..])]
    ensures Truthy(regs[FLAG]) ==>
      Step(Branch(dest), regs, labels).regs == regs[PC := Code(if dest == [] then [] else dest[1..])]
  {
    if Truthy(regs[FLAG]) {
      var jumped := regs[PC := Code(dest)];
      assert jumped[PC] == Code(dest);
      assert Step(Branch(dest), regs, labels) == AdvancePc(jumped);
    } else {
      assert Step(Branch(dest), regs, labels) == AdvancePc(regs);
    }
  }

  /** `goto (label l)` looks l up when it runs and does not advance. */
  lemma GotoLabelEffect(name: string, regs: seq<Value>, labels: map<string, seq<Instr>>)
    requires |regs| >= 2
    ensures name in labels ==> Step(GotoLabel(name), regs, labels) == Effect(regs[PC := Code(labels[name])], None)
    ensures name !in labels ==> Step(GotoLabel(name), regs, labels) == Effect(regs, Some(UnknownLabel(name)))
  {
  }

  /** `goto (reg r)` copies r's contents into `pc` and does not advance. */
  lemma GotoRegisterEffect(k: nat, regs: seq<Value>, labels: map<string, seq<Instr>>)
    requires |regs| >= 2 && k < |regs|
    ensures Step(GotoRegister(k), regs, labels) == Effect(regs[PC := regs[k]], None)
  {
  }

  /** What a compiled primitive yields when evaluated: a constant its value,
      a register the contents it has at evaluation time (the register was
      found when compiling), a label its current pointer. */
  lemma CompiledPrimMeaning(arg: Arg, names: seq<string>, regs: seq<Value>, labels: map<string, seq<Instr>>)
    requires |regs| == |names|
    requires CompilePrim(arg, names).Success?
    ensures arg.Prim? && arg.kind in ["const", "LABEL", "reg"]
    ensures var v := EvalPrim(CompilePrim(arg, names).value, regs, labels);
      (arg.kind == "const" ==> v == Success(ConstValue(arg.value))) &&
      (arg.kind == "reg" ==>
         arg.value.CStr? && arg.value.s in names && v == Success(regs[IndexOf(names, arg.value.s).value])) &&
      (arg.kind == "LABEL" ==>
         (v.Success? <==> arg.value.CStr? && arg.value.s in labels) &&
         (v.Success? ==> v.value == Code(labels[arg.value.s])))
  {
  }

  /** One turn of the `execute` loop: an instruction that does not raise
      hands the rest of the run the registers it produced. */
  lemma RunOneStep(fuel: nat, regs: seq<Value>, labels: map<string, seq<Instr>>, next: seq<Value>)
    requires WfRegs(regs) && WfLabels(labels, |regs|)
    requires regs[PC].Code? && regs[PC].insts != []
    requires Step(regs[PC].insts[0], regs, labels) == Effect(next, None)
    ensures WfRegs(next) && |next| == |regs|
    ensures Run(fuel + 1, regs, labels) == Run(fuel, next, labels)
  {
    StepKeepsWf(regs[PC].insts[0], regs, labels);
  }

  /** The only way `execute` returns normally is with an empty `pc`. */
  lemma {:induction false} HaltedPcEmpty(fuel: nat, regs: seq<Value>, labels: map<string, seq<Instr>>)
    requires WfRegs(regs) && WfLabels(labels, |regs|)
    requires Run(fuel, regs, labels).Halted?
    ensures var out := Run(fuel, regs, labels).regs;
      |out| == |regs| && (out[PC] == Code([]) || out[PC] == Str([]))
    decreases fuel
  {
    if regs[PC].Code? && regs[PC].insts != [] {
      var eff := Step(regs[PC].insts[0], regs, labels);
      StepKeepsWf(regs[PC].insts[0], regs, labels);
      HaltedPcEmpty(fuel - 1, eff.regs, labels);
    }
  }

  /** More fuel does not change a run that already stopped by itself. */
  lemma {:induction false} MoreFuel(fuel: nat, more: nat, regs: seq<Value>, labels: map<string, seq<Instr>>)
    requires WfRegs(regs) && WfLabels(labels, |regs|)
    requires !Run(fuel, regs, labels).OutOfFuel? && fuel <= more
    ensures Run(more, regs, labels) == Run(fuel, regs, labels)
    decreases fuel
  {
    if regs[PC].Code? && regs[PC].insts != [] {
      var eff := Step(regs[PC].insts[0], regs, labels);
      if eff.err.None? {
        StepKeepsWf(regs[PC].insts[0], regs, labels);
        MoreFuel(fuel - 1, more - 1, eff.regs, labels);
      }
    }
  }

  /** Running never adds or removes registers and keeps every instruction
      list in them well formed. */
  lemma {:induction false} RunKeepsWf(fuel: nat, regs: seq<Value>, labels: map<string, seq<Instr>>)
    requires WfRegs(regs) && WfLabels(labels, |regs|)
    ensures var out := Run(fuel, regs, labels).regs; |out| == |regs| && WfRegs(out)
    decreases fuel
  {
    if regs[PC].Code? && regs[PC].insts != [] && fuel > 0 {
      var eff := Step(regs[PC].insts[0], regs, labels);
      StepKeepsWf(regs[PC].insts[0], regs, labels);
      if eff.err.None? {
        RunKeepsWf(fuel - 1, eff.regs, labels);
      }
    }
  }
}
