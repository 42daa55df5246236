/** What `update_instructions` computes, as a function of the token list.
    The source walks the tokens from the last to the first, so the state
    after handling positions i..n-1 depends only on the suffix `toks[i..]`:
    `Assemble(toks)` handles `toks[1..]` first and `toks[0]` last. */
module Assembler {
  import opened Wrappers
  import opened LispParser
  import opened Instructions

  /** `instructions[::-1]`. */
  function Reverse<T>(s: seq<T>): (r: seq<T>)
    ensures |r| == |s|
    ensures forall k | 0 <= k < |s| :: r[k] == s[|s| - 1 - k]
  {
    if s == [] then [] else Reverse(s[1..]) + [s[0]]
  }

  /** The label table, the accumulated `instructions` list (last token's
      instruction first), and the exception that stopped the loop, if any. */
  datatype Assembly = Assembly(labels: map<string, seq<Instr>>, acc: seq<Instr>, err: Option<VmError>)

  function Assemble(toks: seq<InstToken>, names: seq<string>, ops: map<string, OpKind>, labels0: map<string, seq<Instr>>)
    : (a: Assembly)
    requires WfLabels(labels0, |names|)
    ensures WfLabels(a.labels, |names|) && WfCode(a.acc, |names|)
    decreases |toks|
  {
    if toks == [] then Assembly(labels0, [], None)
    else
      var rest := Assemble(toks[1..], names, ops, labels0);
      if rest.err.Some? then rest
      else match toks[0]
        case LabelToken(name) =>
          assert WfCode(Reverse(rest.acc), |names|);
          Assembly(rest.labels[name := Reverse(rest.acc)], rest.acc, None)
        case _ =>
          match CompileToken(toks[0], names, ops, rest.labels)
          case Success(ins) => Assembly(rest.labels, rest.acc + [ins], None)
          case Failure(e) => Assembly(rest.labels, rest.acc, Some(e))
  }

  /** One turn of the loop on a marker: the label gets the instructions
      accumulated so far, in source order. */
  lemma AssembleMarker(name: string, s: seq<InstToken>, names: seq<string>, ops: map<string, OpKind>, labels0: map<string, seq<Instr>>,
                        labels: map<string, seq<Instr>>, acc: seq<Instr>)
    requires WfLabels(labels0, |names|) && Assemble(s, names, ops, labels0) == Assembly(labels, acc, None)
    ensures Assemble([LabelToken(name)] + s, names, ops, labels0) == Assembly(labels[name := Reverse(acc)], acc, None)
  {
    assert ([LabelToken(name)] + s)[1..] == s;
  }

  /** One turn of the loop on an instruction token that compiles. */
  lemma AssembleCompiled(tok: InstToken, ins: Instr, s: seq<InstToken>, names: seq<string>, ops: map<string, OpKind>, labels0: map<string, seq<Instr>>,
                          labels: map<string, seq<Instr>>, acc: seq<Instr>)
    requires WfLabels(labels0, |names|) && Assemble(s, names, ops, labels0) == Assembly(labels, acc, None)
    requires CompileToken(tok, names, ops, labels) == Success(ins)
    ensures Assemble([tok] + s, names, ops, labels0) == Assembly(labels, acc + [ins], None)
  {
    assert ([tok] + s)[1..] == s;
  }

  /** The program in source order. */
  function Program(a: Assembly): seq<Instr> {
    Reverse(a.acc)
  }

  function NonLabelCount(toks: seq<InstToken>): (c: nat)
    ensures c <= |toks|
  {
    if toks == [] then 0 else NonLabelCount(toks[1..]) + (if toks[0].LabelToken? then 0 else 1)
  }

  predicate IsPrefix<T(==)>(a: seq<T>, b: seq<T>) {
    |a| <= |b| && b[..|a|] == a
  }

  /** Each token other than a label marker yields exactly one instruction. */
  lemma {:induction false} AssembleCount(toks: seq<InstToken>, names: seq<string>, ops: map<string, OpKind>, labels0: map<string, seq<Instr>>)
    requires WfLabels(labels0, |names|)
    requires Assemble(toks, names, ops, labels0).err.None?
    ensures |Assemble(toks, names, ops, labels0).acc| == NonLabelCount(toks)
  {
    if toks != [] {
      AssembleCount(toks[1..], names, ops, labels0);
    }
  }

  /** The instructions of a suffix of the tokens are the first ones the
      loop accumulates, so a failure in a suffix is a failure of the whole. */
  lemma {:induction false} SuffixAssembled(toks: seq<InstToken>, k: nat, names: seq<string>, ops: map<string, OpKind>, labels0: map<string, seq<Instr>>)
    requires WfLabels(labels0, |names|) && k <= |toks|
    requires Assemble(toks, names, ops, labels0).err.None?
    ensures Assemble(toks[k..], names, ops, labels0).err.None?
    ensures IsPrefix(Assemble(toks[k..], names, ops, labels0).acc, Assemble(toks, names, ops, labels0).acc)
    decreases k
  {
    if k > 0 {
      SuffixAssembled(toks[1..], k - 1, names, ops, labels0);
      assert toks[1..][k - 1..] == toks[k..];
      var inner := Assemble(toks[k..], names, ops, labels0).acc;
      var mid := Assemble(toks[1..], names, ops, labels0).acc;
      var all := Assemble(toks, names, ops, labels0).acc;
      assert IsPrefix(mid, all);
      assert all[..|inner|] == mid[..|inner|];
    } else {
      assert toks[0..] == toks;
    }
  }

  /** Once a token raises, the loop stops: the result is that of the
      suffix that failed. */
  lemma {:induction false} FailureStops(toks: seq<InstToken>, k: nat, names: seq<string>, ops: map<string, OpKind>, labels0: map<string, seq<Instr>>)
    requires WfLabels(labels0, |names|) && k <= |toks|
    requires Assemble(toks[k..], names, ops, labels0).err.Some?
    ensures Assemble(toks, names, ops, labels0) == Assemble(toks[k..], names, ops, labels0)
    decreases k
  {
    if k > 0 {
      assert toks[1..][k - 1..] == toks[k..];
      FailureStops(toks[1..], k - 1, names, ops, labels0);
    } else {
      assert toks[0..] == toks;
    }
  }

  /** A token other than a marker is compiled against the label table as
      the loop left it after the tokens that follow, and its instruction
      sits in the accumulator just after theirs. */
  lemma AssembledInstruction(toks: seq<InstToken>, j: nat, names: seq<string>, ops: map<string, OpKind>, labels0: map<string, seq<Instr>>)
    requires WfLabels(labels0, |names|) && j < |toks| && !toks[j].LabelToken?
    requires Assemble(toks, names, ops, labels0).err.None?
    ensures var after := Assemble(toks[j + 1..], names, ops, labels0);
      |after.acc| < |Assemble(toks, names, ops, labels0).acc| &&
      CompileToken(toks[j], names, ops, after.labels) == Success(Assemble(toks, names, ops, labels0).acc[|after.acc|])
  {
    SuffixAssembled(toks, j, names, ops, labels0);
    assert toks[j..][1..] == toks[j + 1..];
    var here := Assemble(toks[j..], names, ops, labels0);
    var all := Assemble(toks, names, ops, labels0).acc;
    var after := Assemble(toks[j + 1..], names, ops, labels0);
    assert here.acc == after.acc + [here.acc[|after.acc|]];
    assert all[|after.acc|] == all[..|here.acc|][|after.acc|];
  }

  /** The markers a suffix mentions. */
  predicate Marks(toks: seq<InstToken>, name: string) {
    exists k | 0 <= k < |toks| :: toks[k] == LabelToken(name)
  }

  /** A label no marker mentions keeps the entry it had before. */
  lemma {:induction false} UnmarkedLabelKept(toks: seq<InstToken>, name: string, names: seq<string>, ops: map<string, OpKind>, labels0: map<string, seq<Instr>>)
    requires WfLabels(labels0, |names|) && !Marks(toks, name)
    ensures var a := Assemble(toks, names, ops, labels0);
      (name in a.labels <==> name in labels0) && (name in labels0 ==> a.labels[name] == labels0[name])
  {
    if toks != [] {
      assert !Marks(toks[1..], name) by {
        forall k | 0 <= k < |toks[1..]| ensures toks[1..][k] != LabelToken(name) {
          assert toks[1..][k] == toks[k + 1];
        }
      }
      UnmarkedLabelKept(toks[1..], name, names, ops, labels0);
    }
  }

  /** The first marker of a label decides its pointer: the instructions of
      all the tokens after it, in source order. */
  lemma {:induction false} LabelPointsAfterMarker(toks: seq<InstToken>, i: nat, names: seq<string>, ops: map<string, OpKind>, labels0: map<string, seq<Instr>>)
    requires WfLabels(labels0, |names|) && i < |toks| && toks[i].LabelToken?
    requires !Marks(toks[..i], toks[i].labelName)
    requires Assemble(toks, names, ops, labels0).err.None?
    ensures var a := Assemble(toks, names, ops, labels0);
      toks[i].labelName in a.labels &&
      a.labels[toks[i].labelName] == Reverse(Assemble(toks[i + 1..], names, ops, labels0).acc)
    decreases i
  {
    var name := toks[i].labelName;
    if i == 0 {
      assert toks[1..] == toks[i + 1..];
    } else {
      assert toks[0] != LabelToken(name) by {
        assert toks[..i][0] == toks[0];
      }
      var before := toks[1..][..i - 1];
      assert !Marks(before, name) by {
        forall k | 0 <= k < |before| ensures before[k] != LabelToken(name) {
          assert before[k] == toks[..i][k + 1];
        }
      }
      assert toks[1..][i - 1 + 1..] == toks[i + 1..];
      LabelPointsAfterMarker(toks[1..], i - 1, names, ops, labels0);
    }
  }

  lemma ReversedPrefixIsSuffix<T>(inner: seq<T>, all: seq<T>)
    requires |inner| <= |all| && all[..|inner|] == inner
    ensures Reverse(inner) == Reverse(all)[|all| - |inner|..]
  {
    var r := Reverse(all)[|all| - |inner|..];
    forall k | 0 <= k < |inner| ensures Reverse(inner)[k] == r[k] {
      assert inner[|inner| - 1 - k] == all[..|inner|][|inner| - 1 - k];
    }
  }

  /** Read against the whole program: a label's pointer is a suffix of the
      program in source order, as long as the number of non-marker tokens
      after its first marker. */
  lemma LabelIsProgramSuffix(toks: seq<InstToken>, i: nat, names: seq<string>, ops: map<string, OpKind>, labels0: map<string, seq<Instr>>)
    requires WfLabels(labels0, |names|) && i < |toks| && toks[i].LabelToken?
    requires !Marks(toks[..i], toks[i].labelName)
    requires Assemble(toks, names, ops, labels0).err.None?
    ensures var a := Assemble(toks, names, ops, labels0);
      toks[i].labelName in a.labels &&
      var p := a.labels[toks[i].labelName];
      |p| == NonLabelCount(toks[i + 1..]) && |p| <= |Program(a)| && p == Program(a)[|Program(a)| - |p|..]
  {
    LabelPointsAfterMarker(toks, i, names, ops, labels0);
    SuffixAssembled(toks, i + 1, names, ops, labels0);
    AssembleCount(toks[i + 1..], names, ops, labels0);
    var a := Assemble(toks, names, ops, labels0);
    ReversedPrefixIsSuffix(Assemble(toks[i + 1..], names, ops, labels0).acc, a.acc);
  }

  /** A branch can only reach a label whose marker comes after it (or one
      known before assembly started): branches are resolved while the loop
      runs backwards, so a backward branch makes assembly fail. */
  lemma {:induction false} BranchToUnknownLabelFails(toks: seq<InstToken>, j: nat, names: seq<string>, ops: map<string, OpKind>, labels0: map<string, seq<Instr>>)
    requires WfLabels(labels0, |names|) && j < |toks| && toks[j].BranchToken?
    requires !Marks(toks[j + 1..], toks[j].labelName) && toks[j].labelName !in labels0
    ensures Assemble(toks, names, ops, labels0).err.Some?
  {
    var name := toks[j].labelName;
    var after := Assemble(toks[j + 1..], names, ops, labels0);
    UnmarkedLabelKept(toks[j + 1..], name, names, ops, labels0);
    if Assemble(toks, names, ops, labels0).err.None? {
      AssembledInstruction(toks, j, names, ops, labels0);
    }
  }
}
