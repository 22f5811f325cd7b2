/**
 * The VM-to-Hack code generator of project 8 (08/CodeWriter.py). A `CodeWriter` keeps the
 * label counter and the lines written so far; every method appends lines step by step, and
 * a method that raises leaves the lines it wrote before the exception in place (the file is
 * written line by line).
 *
 * The `...Code` functions give each helper's output as Hack instructions; the methods are
 * proved to append exactly `Lines(...)` of them. The lemmas after the class state the exact
 * text of the fixed sequences and the failing paths; StackEffects runs the code on a Hack
 * machine.
 */
module CodeWriter08 {
  import opened Wrappers
  import opened Text
  import opened HackAsm
  import opened VmTokens

  /** The label `_get_label` returns for counter value `k`. */
  function LabelName(k: nat): string {
    "LABEL" + Decimal(k)
  }

  /** Labels drawn at different counter values differ. */
  lemma LabelNamesDistinct(i: nat, j: nat)
    requires i != j
    ensures LabelName(i) != LabelName(j)
  {
    PrefixedDecimalInjective("LABEL", i, j);
  }

  // ---------------------------------------------------------------------------------------
  // What each helper emits

  const LoadSpCode: seq<Instr> := [AInstr("SP"), CInstr(Some("A"), "M", None)]
  const IncSpCode: seq<Instr> := [AInstr("SP"), CInstr(Some("M"), "M+1", None)]
  const DecSpCode: seq<Instr> := [AInstr("SP"), CInstr(Some("M"), "M-1", None)]

  function PopToDestCode(dest: string): seq<Instr> {
    DecSpCode + LoadSpCode + [CInstr(Some(dest), "M", None)]
  }

  function PushCompCode(comp: string): seq<Instr> {
    LoadSpCode + [CInstr(Some("M"), comp, None)] + IncSpCode
  }

  function PushValueCode(value: string): seq<Instr> {
    [AInstr(value), CInstr(Some("D"), "A", None)] + PushCompCode("D")
  }

  function PushMemCode(reg: string, offset: string): seq<Instr> {
    [AInstr(offset), CInstr(Some("D"), "A", None), AInstr(reg), CInstr(Some("A"), "M", None),
     CInstr(Some("A"), "D+A", None), CInstr(Some("D"), "M", None)]
    + LoadSpCode + [CInstr(Some("M"), "D", None)] + IncSpCode
  }

  function PushRegCode(reg: string): seq<Instr> {
    [AInstr(reg), CInstr(Some("D"), "M", None)] + PushCompCode("D")
  }

  function UnaryCode(comp: string): seq<Instr> {
    PopToDestCode("A") + [CInstr(Some("D"), comp, None)] + PushCompCode("D")
  }

  function BinaryCode(comp: string): seq<Instr> {
    PopToDestCode("D") + UnaryCode(comp)
  }

  function JumpCode(target: string, dest: Option<string>, comp: string, jump: string): seq<Instr> {
    [AInstr(target), CInstr(dest, comp, Some(jump))]
  }

  /** The first three steps of `_comparison`: pop the second operand into D, the first into A,
      and leave their difference in D. */
  const DifferenceCode: seq<Instr> :=
    PopToDestCode("D") + PopToDestCode("A") + [CInstr(Some("D"), "A-D", None)]

  /** `_comparison(jump)` when the label counter is `n` on entry: it draws labels `n` and `n + 1`. */
  function ComparisonCode(jump: string, n: nat): seq<Instr> {
    DifferenceCode + JumpCode(LabelName(n), None, "D", jump) + PushCompCode("0")
    + JumpCode(LabelName(n + 1), None, "0", "JMP") + [LInstr(LabelName(n))]
    + PushCompCode("-1") + [LInstr(LabelName(n + 1))]
  }

  const InitCode: seq<Instr> :=
    [AInstr("256"), CInstr(Some("D"), "A", None), AInstr("SP"), CInstr(Some("M"), "D", None)]

  function GotoCode(target: string): seq<Instr> {
    [AInstr(target), CInstr(None, "0", Some("JMP"))]
  }

  function IfCode(target: string): seq<Instr> {
    PopToDestCode("D") + [AInstr(target), CInstr(None, "D", Some("JNE"))]
  }

  /** The frame `write_call` saves: the return address, then LCL, ARG, THIS and THAT. */
  function FrameCode(returnLabel: string): seq<Instr> {
    PushValueCode(returnLabel) + PushRegCode("LCL") + PushRegCode("ARG")
    + PushRegCode("THIS") + PushRegCode("THAT")
  }

  /** ARG := SP - (numArgs + 5). */
  function RepositionArgCode(numArgs: int): seq<Instr> {
    [AInstr(IntToString(numArgs + 5)), CInstr(Some("D"), "A", None),
     AInstr("SP"), CInstr(Some("A"), "M", None), CInstr(Some("D"), "A-D", None),
     AInstr("ARG"), CInstr(Some("M"), "D", None)]
  }

  /** LCL := SP. */
  const RepositionLclCode: seq<Instr> :=
    [AInstr("SP"), CInstr(Some("D"), "M", None), AInstr("LCL"), CInstr(Some("M"), "D", None)]

  /** What `write_call` emits before it raises: the frame, the ARG and LCL set-up, `@f`. */
  function CallPrefixCode(functionName: string, numArgs: int, returnLabel: string): seq<Instr> {
    FrameCode(returnLabel) + RepositionArgCode(numArgs) + RepositionLclCode + [AInstr(functionName)]
  }

  /** The unfinished `write_return`: it only saves LCL into FRAME. */
  const ReturnCode: seq<Instr> :=
    [AInstr("LCL"), CInstr(Some("D"), "M", None), AInstr("FRAME"), CInstr(Some("M"), "D", None)]

  /** `k` copies of a fragment. */
  function Repeat(code: seq<Instr>, k: nat): (r: seq<Instr>)
    ensures |r| == k * |code|
    ensures forall i | 0 <= i < |r| :: r[i] == code[i % |code|]
  {
    if k == 0 then []
    else
      var p := Repeat(code, k - 1);
      assert forall i | |p| <= i < |p| + |code| :: i % |code| == i - |p| by {
        forall i | |p| <= i < |p| + |code| {
          ModUnique(i, |code|, k - 1, i - |p|);
        }
      }
      p + code
  }

  function FunctionCode(functionName: string, numLocals: int): seq<Instr> {
    [LInstr(functionName)] + Repeat(PushValueCode("0"), if numLocals > 0 then numLocals else 0)
  }

  /** `_seg_reg_map`: the base register of each frame-relative segment. */
  const BaseRegister: map<string, string> :=
    map["argument" := "ARG", "local" := "LCL", "this" := "THIS", "that" := "THAT"]

  /** What `_push(segment, index)` emits, or the exception it raises before emitting anything. */
  function PushCode(segment: string, index: string): Result<seq<Instr>, WriteError> {
    if segment == "constant" then Ok(PushValueCode(index))
    else if segment in BaseRegister then Ok(PushMemCode(BaseRegister[segment], index))
    else if segment == "pointer" then
      if index != "0" || index != "1" then Err(SegmentIndexOutOfRange)
      else Ok(PushRegCode(if index == "0" then "THIS" else "THAT"))
    else if segment == "temp" then
      if !IsNumeral(index) then Err(InvalidSegmentIndex)
      else
        var idx: int := ParseDecimal(index);
        if idx < 0 || idx > 7 then Err(SegmentIndexOutOfRange)
        else Ok(PushRegCode("R" + Decimal(5 + idx)))
    else if segment == "static" then Err(UndefinedBasename)
    else Err(UnknownSegment(segment))
  }

  /** What `write_arithmetic(command)` emits when the label counter is `n`. */
  function ArithmeticCode(command: string, n: nat): Result<seq<Instr>, WriteError> {
    if command == "add" then Ok(BinaryCode("D+A"))
    else if command == "sub" then Ok(BinaryCode("A-D"))
    else if command == "and" then Ok(BinaryCode("D&A"))
    else if command == "or" then Ok(BinaryCode("D|A"))
    else if command == "neg" then Ok(UnaryCode("-D"))
    else if command == "not" then Ok(UnaryCode("!D"))
    else if command == "eq" then Ok(ComparisonCode("JEQ", n))
    else if command == "gt" then Ok(ComparisonCode("JGT", n))
    else if command == "lt" then Ok(ComparisonCode("JLT", n))
    else Err(UnknownCommand(command))
  }

  /** `_push` with the pointer test written as intended, `index` neither "0" nor "1". */
  function CorrectedPushCode(segment: string, index: string): Result<seq<Instr>, WriteError> {
    if segment == "pointer" then
      if index != "0" && index != "1" then Err(SegmentIndexOutOfRange)
      else Ok(PushRegCode(if index == "0" then "THIS" else "THAT"))
    else PushCode(segment, index)
  }

  /** `write_arithmetic` with neg and not applied to the popped operand, which `_pop_to_dest("A")`
      leaves in A: comp `-A` and `!A` instead of `-D` and `!D`. */
  function CorrectedArithmeticCode(command: string, n: nat): Result<seq<Instr>, WriteError> {
    if command == "neg" then Ok(UnaryCode("-A"))
    else if command == "not" then Ok(UnaryCode("!A"))
    else ArithmeticCode(command, n)
  }

  /** How many labels `write_arithmetic(command)` draws. */
  function LabelsDrawn(command: string): nat {
    if command == "eq" || command == "gt" || command == "lt" then 2 else 0
  }

  // ---------------------------------------------------------------------------------------
  // The writer

  class CodeWriter {
    const outFilename: string
    var labelCount: nat
    /** The lines written to the output file so far. */
    var out: seq<string>
    /** The same lines as instructions. */
    ghost var code: seq<Instr>
    /** The labels drawn so far, in order. */
    ghost var issued: seq<string>

    ghost predicate Valid()
      reads this
    {
      && out == Lines(code)
      && |issued| == labelCount
      && (forall k | 0 <= k < labelCount :: issued[k] == LabelName(k))
    }

    constructor (outFilename: string)
      ensures Valid()
      ensures this.outFilename == outFilename && labelCount == 0 && out == [] && code == [] && issued == []
    {
      this.outFilename := outFilename;
      labelCount := 0;
      out := [];
      code := [];
      issued := [];
    }

    // ---- line emitters

    method ACommand(value: string)
      requires Valid()
      modifies this`out, this`code
      ensures Valid()
      ensures code == old(code) + [AInstr(value)]
      ensures out == old(out) + [ALine(value)]
    {
      out := out + ["@" + value];
      LinesConcat(code, [AInstr(value)]);
      code := code + [AInstr(value)];
    }

    /** `_c_command`: raises, writing nothing, when comp is None; a comp that is not a string fails at the concatenation. */
    method CCommand(dest: Option<string>, comp: Field, jump: Option<string>) returns (o: Outcome<WriteError>)
      requires Valid()
      modifies this`out, this`code
      ensures Valid()
      ensures CLine(dest, comp, jump).Ok? ==>
                && o == Pass
                && code == old(code) + [CInstr(dest, comp.s, jump)]
                && out == old(out) + [CLine(dest, comp, jump).value]
      ensures CLine(dest, comp, jump).Err? ==>
                o == Fail(BadLine(CLine(dest, comp, jump).error)) && code == old(code) && out == old(out)
    {
      if comp.NoneValue? {
        return Fail(BadLine(InvalidComp));
      }
      var line := "";
      if dest.Some? {
        line := dest.value + "=";
      }
      if !comp.Str? {
        return Fail(BadLine(CompNotString));
      }
      line := line + comp.s;
      if jump.Some? {
        line := line + (";" + jump.value);
      }
      assert line == Render(CInstr(dest, comp.s, jump));
      out := out + [line];
      LinesConcat(code, [CInstr(dest, comp.s, jump)]);
      code := code + [CInstr(dest, comp.s, jump)];
      o := Pass;
    }

    /** A C-command with a string comp, which never raises. */
    method C(dest: Option<string>, comp: string, jump: Option<string>)
      requires Valid()
      modifies this`out, this`code
      ensures Valid()
      ensures code == old(code) + [CInstr(dest, comp, jump)]
      ensures out == old(out) + [Render(CInstr(dest, comp, jump))]
    {
      var o := CCommand(dest, Str(comp), jump);
    }

    method LCommand(name: string)
      requires Valid()
      modifies this`out, this`code
      ensures Valid()
      ensures code == old(code) + [LInstr(name)]
      ensures out == old(out) + [LLine(name)]
    {
      out := out + ["(" + name + ")"];
      LinesConcat(code, [LInstr(name)]);
      code := code + [LInstr(name)];
    }

    method GetLabel() returns (name: string)
      requires Valid()
      modifies this`labelCount, this`issued
      ensures Valid()
      ensures name == LabelName(old(labelCount)) && labelCount == old(labelCount) + 1
      ensures name !in old(issued) && issued == old(issued) + [name]
    {
      name := "LABEL" + Decimal(labelCount);
      forall k | 0 <= k < labelCount ensures issued[k] != name {
        LabelNamesDistinct(k, labelCount);
      }
      issued := issued + [name];
      labelCount := labelCount + 1;
    }

    // ---- stack helpers

    method LoadSp()
      requires Valid()
      modifies this`out, this`code
      ensures Valid()
      ensures code == old(code) + LoadSpCode
    {
      ACommand("SP");
      C(Some("A"), "M", None);
    }

    method IncSp()
      requires Valid()
      modifies this`out, this`code
      ensures Valid()
      ensures code == old(code) + IncSpCode
    {
      ACommand("SP");
      C(Some("M"), "M+1", None);
    }

    method DecSp()
      requires Valid()
      modifies this`out, this`code
      ensures Valid()
      ensures code == old(code) + DecSpCode
    {
      ACommand("SP");
      C(Some("M"), "M-1", None);
    }

    method PopToDest(dest: string)
      requires Valid()
      modifies this`out, this`code
      ensures Valid()
      ensures code == old(code) + PopToDestCode(dest)
    {
      DecSp();
      LoadSp();
      C(Some(dest), "M", None);
    }

    method PushComp(comp: string)
      requires Valid()
      modifies this`out, this`code
      ensures Valid()
      ensures code == old(code) + PushCompCode(comp)
    {
      LoadSp();
      C(Some("M"), comp, None);
      IncSp();
    }

    method PushValue(value: string)
      requires Valid()
      modifies this`out, this`code
      ensures Valid()
      ensures code == old(code) + PushValueCode(value)
    {
      ACommand(value);
      C(Some("D"), "A", None);
      PushComp("D");
    }

    method PushMem(reg: string, offset: string)
      requires Valid()
      modifies this`out, this`code
      ensures Valid()
      ensures code == old(code) + PushMemCode(reg, offset)
    {
      ACommand(offset);
      C(Some("D"), "A", None);
      ACommand(reg);
      C(Some("A"), "M", None);
      C(Some("A"), "D+A", None);
      C(Some("D"), "M", None);
      LoadSp();
      C(Some("M"), "D", None);
      IncSp();
    }

    method PushReg(reg: string)
      requires Valid()
      modifies this`out, this`code
      ensures Valid()
      ensures code == old(code) + PushRegCode(reg)
    {
      ACommand(reg);
      C(Some("D"), "M", None);
      PushComp("D");
    }

    /** `_pop` is a stub: it emits nothing. */
    method Pop(segment: string, index: string)
      ensures out == old(out)
    {
    }

    method Jump(target: string, dest: Option<string>, comp: string, jump: string)
      requires Valid()
      modifies this`out, this`code
      ensures Valid()
      ensures code == old(code) + JumpCode(target, dest, comp, jump)
    {
      ACommand(target);
      C(dest, comp, Some(jump));
    }

    // ---- arithmetic and comparison

    method Unary(comp: string)
      requires Valid()
      modifies this`out, this`code
      ensures Valid()
      ensures code == old(code) + UnaryCode(comp)
    {
      PopToDest("A");
      C(Some("D"), comp, None);
      PushComp("D");
    }

    method Binary(comp: string)
      requires Valid()
      modifies this`out, this`code
      ensures Valid()
      ensures code == old(code) + BinaryCode(comp)
    {
      PopToDest("D");
      Unary(comp);
    }

    method Difference()
      requires Valid()
      modifies this`out, this`code
      ensures Valid()
      ensures code == old(code) + DifferenceCode
    {
      PopToDest("D");
      PopToDest("A");
      C(Some("D"), "A-D", None);
    }

    method Comparison(jump: string)
      requires Valid()
      modifies this`out, this`code, this`labelCount, this`issued
      ensures Valid()
      ensures labelCount == old(labelCount) + 2
      ensures code == old(code) + ComparisonCode(jump, old(labelCount))
    {
      ghost var n := labelCount;
      Difference();
      ghost var c1 := code;
      var eqLabel := GetLabel();
      Jump(eqLabel, None, "D", jump);
      PushComp("0");
      ghost var c2 := code;
      assert c2 == c1 + (JumpCode(LabelName(n), None, "D", jump) + PushCompCode("0"));
      var neqLabel := GetLabel();
      Jump(neqLabel, None, "0", "JMP");
      LCommand(eqLabel);
      ghost var c3 := code;
      assert c3 == c2 + (JumpCode(LabelName(n + 1), None, "0", "JMP") + [LInstr(LabelName(n))]);
      PushComp("-1");
      LCommand(neqLabel);
      assert code == c3 + (PushCompCode("-1") + [LInstr(LabelName(n + 1))]);
    }

    // ---- push and pop

    method Push(segment: string, index: string) returns (o: Outcome<WriteError>)
      requires Valid()
      modifies this`out, this`code
      ensures Valid()
      ensures PushCode(segment, index).Ok? ==> o == Pass && code == old(code) + PushCode(segment, index).value
      ensures PushCode(segment, index).Err? ==> o == Fail(PushCode(segment, index).error) && code == old(code)
    {
      if segment == "constant" {
        PushValue(index);
        o := Pass;
      } else if segment == "argument" || segment == "local" || segment == "this" || segment == "that" {
        PushMem(BaseRegister[segment], index);
        o := Pass;
      } else if segment == "pointer" {
        if index != "0" || index != "1" {
          o := Fail(SegmentIndexOutOfRange);
        } else {
          // never reached: one of the two inequalities always holds
          assert false;
        }
      } else if segment == "temp" {
        if !IsNumeral(index) {
          return Fail(InvalidSegmentIndex);
        }
        var idx: int := ParseDecimal(index);
        if idx < 0 || idx > 7 {
          o := Fail(SegmentIndexOutOfRange);
        } else {
          PushReg("R" + Decimal(5 + idx));
          o := Pass;
        }
      } else if segment == "static" {
        o := Fail(UndefinedBasename);
      } else {
        o := Fail(UnknownSegment(segment));
      }
    }

    // ---- public methods

    method WriteInit()
      requires Valid()
      modifies this`out, this`code
      ensures Valid()
      ensures code == old(code) + InitCode
      ensures out == old(out) + Lines(InitCode)
    {
      ACommand("256");
      C(Some("D"), "A", None);
      ACommand("SP");
      C(Some("M"), "D", None);
      LinesConcat(old(code), InitCode);
    }

    method WriteLabel(name: string)
      requires Valid()
      modifies this`out, this`code
      ensures Valid()
      ensures code == old(code) + [LInstr(name)]
      ensures out == old(out) + [LLine(name)]
    {
      LCommand(name);
    }

    method WriteGoto(target: string)
      requires Valid()
      modifies this`out, this`code
      ensures Valid()
      ensures code == old(code) + GotoCode(target)
      ensures out == old(out) + Lines(GotoCode(target))
    {
      ACommand(target);
      C(None, "0", Some("JMP"));
      LinesConcat(old(code), GotoCode(target));
    }

    method WriteIf(target: string)
      requires Valid()
      modifies this`out, this`code
      ensures Valid()
      ensures code == old(code) + IfCode(target)
      ensures out == old(out) + Lines(IfCode(target))
    {
      PopToDest("D");
      ACommand(target);
      C(None, "D", Some("JNE"));
      LinesConcat(old(code), IfCode(target));
    }

    // The three stretches of `write_call`, as separate steps.

    method PushFrame(returnLabel: string)
      requires Valid()
      modifies this`out, this`code
      ensures Valid()
      ensures code == old(code) + FrameCode(returnLabel)
    {
      PushValue(returnLabel);
      PushReg("LCL");
      ghost var c1 := code;
      assert c1 == old(code) + (PushValueCode(returnLabel) + PushRegCode("LCL"));
      PushReg("ARG");
      PushReg("THIS");
      PushReg("THAT");
    }

    method RepositionArg(numArgs: int)
      requires Valid()
      modifies this`out, this`code
      ensures Valid()
      ensures code == old(code) + RepositionArgCode(numArgs)
    {
      ACommand(IntToString(numArgs + 5));
      C(Some("D"), "A", None);
      ACommand("SP");
      C(Some("A"), "M", None);
      ghost var c1 := code;
      assert c1 == old(code) + [AInstr(IntToString(numArgs + 5)), CInstr(Some("D"), "A", None),
                                AInstr("SP"), CInstr(Some("A"), "M", None)];
      C(Some("D"), "A-D", None);
      ACommand("ARG");
      C(Some("M"), "D", None);
    }

    method RepositionLcl()
      requires Valid()
      modifies this`out, this`code
      ensures Valid()
      ensures code == old(code) + RepositionLclCode
    {
      ACommand("SP");
      C(Some("D"), "M", None);
      ACommand("LCL");
      C(Some("M"), "D", None);
    }

    /**
     * `write_call`: draws the return label and emits the call sequence up to `@f`; the jump
     * line passes the integer 0 as comp, so it raises there and neither `0;JMP` nor the
     * return label line is written.
     */
    method WriteCall(functionName: string, numArgs: int) returns (o: Outcome<WriteError>)
      requires Valid()
      modifies this`out, this`code, this`labelCount, this`issued
      ensures Valid()
      ensures labelCount == old(labelCount) + 1
      ensures code == old(code) + CallPrefixCode(functionName, numArgs, LabelName(old(labelCount)))
      ensures out == old(out) + Lines(CallPrefixCode(functionName, numArgs, LabelName(old(labelCount))))
      ensures o == Fail(BadLine(CompNotString))
    {
      var returnLabel := GetLabel();
      ghost var c0 := code;
      PushFrame(returnLabel);
      RepositionArg(numArgs);
      RepositionLcl();
      ACommand(functionName);
      ConcatAssoc(c0, FrameCode(returnLabel) + RepositionArgCode(numArgs) + RepositionLclCode, [AInstr(functionName)]);
      ConcatAssoc(c0, FrameCode(returnLabel) + RepositionArgCode(numArgs), RepositionLclCode);
      ConcatAssoc(c0, FrameCode(returnLabel), RepositionArgCode(numArgs));
      o := CCommand(None, IntValue(0), Some("JMP"));
      LinesConcat(old(code), CallPrefixCode(functionName, numArgs, LabelName(old(labelCount))));
    }

    /** `write_return` is unfinished: it saves LCL into FRAME and stops. */
    method WriteReturn()
      requires Valid()
      modifies this`out, this`code
      ensures Valid()
      ensures code == old(code) + ReturnCode
      ensures out == old(out) + Lines(ReturnCode)
    {
      ACommand("LCL");
      C(Some("D"), "M", None);
      ACommand("FRAME");
      C(Some("M"), "D", None);
      LinesConcat(old(code), ReturnCode);
    }

    method WriteFunction(functionName: string, numLocals: int)
      requires Valid()
      modifies this`out, this`code
      ensures Valid()
      ensures code == old(code) + FunctionCode(functionName, numLocals)
      ensures out == old(out) + Lines(FunctionCode(functionName, numLocals))
    {
      LCommand(functionName);
      var i := 0;
      while i < numLocals
        invariant Valid()
        invariant 0 <= i
        invariant i <= numLocals || i == 0
        invariant code == old(code) + [LInstr(functionName)] + Repeat(PushValueCode("0"), i)
        decreases numLocals - i
      {
        PushValue("0");
        i := i + 1;
      }
      LinesConcat(old(code), FunctionCode(functionName, numLocals));
    }

    method WritePushPop(command: VmToken, segment: string, index: string) returns (o: Outcome<WriteError>)
      requires Valid()
      modifies this`out, this`code
      ensures Valid()
      ensures command == PUSH && PushCode(segment, index).Ok? ==>
                && o == Pass
                && code == old(code) + PushCode(segment, index).value
                && out == old(out) + Lines(PushCode(segment, index).value)
      ensures command == PUSH && PushCode(segment, index).Err? ==>
                o == Fail(PushCode(segment, index).error) && code == old(code) && out == old(out)
      ensures command == POP ==> o == Pass && code == old(code) && out == old(out)
      ensures command != PUSH && command != POP ==> o == Fail(InvalidCommand) && code == old(code) && out == old(out)
    {
      if command == PUSH {
        o := Push(segment, index);
        if o == Pass {
          LinesConcat(old(code), PushCode(segment, index).value);
        }
      } else if command == POP {
        Pop(segment, index);
        o := Pass;
      } else {
        o := Fail(InvalidCommand);
      }
    }

    method WriteArithmetic(command: string) returns (o: Outcome<WriteError>)
      requires Valid()
      modifies this`out, this`code, this`labelCount, this`issued
      ensures Valid()
      ensures labelCount == old(labelCount) + LabelsDrawn(command)
      ensures ArithmeticCode(command, old(labelCount)).Ok? ==>
                && o == Pass
                && code == old(code) + ArithmeticCode(command, old(labelCount)).value
                && out == old(out) + Lines(ArithmeticCode(command, old(labelCount)).value)
      ensures ArithmeticCode(command, old(labelCount)).Err? ==>
                o == Fail(ArithmeticCode(command, old(labelCount)).error) && code == old(code) && out == old(out)
    {
      o := Pass;
      if command == "add" {
        Binary("D+A");
      } else if command == "sub" {
        Binary("A-D");
      } else if command == "and" {
        Binary("D&A");
      } else if command == "or" {
        Binary("D|A");
      } else if command == "neg" {
        Unary("-D");
      } else if command == "not" {
        Unary("!D");
      } else if command == "eq" {
        Comparison("JEQ");
      } else if command == "gt" {
        Comparison("JGT");
      } else if command == "lt" {
        Comparison("JLT");
      } else {
        o := Fail(UnknownCommand(command));
      }
      if o == Pass {
        LinesConcat(old(code), ArithmeticCode(command, old(labelCount)).value);
      }
    }
  }

  // ---------------------------------------------------------------------------------------
  // What the writer promises

  /** Every label a writer has drawn is distinct from every other. */
  lemma IssuedLabelsDistinct(w: CodeWriter)
    requires w.Valid()
    ensures forall i, j | 0 <= i < j < |w.issued| :: w.issued[i] != w.issued[j]
  {
    forall i, j | 0 <= i < j < |w.issued| ensures w.issued[i] != w.issued[j] {
      LabelNamesDistinct(i, j);
    }
  }

  /** The test `index != "0" or index != "1"` holds for every index, so push pointer always raises. */
  lemma PushPointerAlwaysFails(index: string)
    ensures PushCode("pointer", index) == Err(SegmentIndexOutOfRange)
  {
  }

  /** The segments `_push` accepts: constant and the four base segments with any index, temp
      with a numeral index up to 7. */
  lemma PushCodeAccepts(segment: string, index: string)
    ensures PushCode(segment, index).Ok?
        <==> segment == "constant" || segment == "argument" || segment == "local" || segment == "this"
             || segment == "that" || (segment == "temp" && IsNumeral(index) && ParseDecimal(index) <= 7)
  {
    assert segment in BaseRegister <==> segment == "argument" || segment == "local" || segment == "this" || segment == "that";
  }

  /** The errors `_push` raises for the other segments. */
  lemma PushCodeErrors(segment: string, index: string)
    ensures segment == "static" ==> PushCode(segment, index) == Err(UndefinedBasename)
    ensures segment == "temp" && !IsNumeral(index) ==> PushCode(segment, index) == Err(InvalidSegmentIndex)
    ensures segment == "temp" && IsNumeral(index) && ParseDecimal(index) > 7
            ==> PushCode(segment, index) == Err(SegmentIndexOutOfRange)
    ensures segment !in {"constant", "argument", "local", "this", "that", "pointer", "temp", "static"}
            ==> PushCode(segment, index) == Err(UnknownSegment(segment))
  {
  }

  /** With the pointer test corrected, push pointer accepts exactly 0 and 1. */
  lemma CorrectedPushPointer(index: string)
    ensures CorrectedPushCode("pointer", index).Ok? <==> index == "0" || index == "1"
    ensures index == "0" ==> CorrectedPushCode("pointer", index) == Ok(PushRegCode("THIS"))
    ensures index == "1" ==> CorrectedPushCode("pointer", index) == Ok(PushRegCode("THAT"))
  {
  }

  /** `write_arithmetic` accepts exactly the nine VM operators. */
  lemma ArithmeticCodeAccepts(command: string, n: nat)
    ensures ArithmeticCode(command, n).Ok?
        <==> command in {"add", "sub", "and", "or", "neg", "not", "eq", "gt", "lt"}
    ensures ArithmeticCode(command, n).Err? ==> ArithmeticCode(command, n).error == UnknownCommand(command)
  {
  }

  /** The text of the fixed sequences. */
  lemma InitLines()
    ensures Lines(InitCode) == ["@256", "D=A", "@SP", "M=D"]
  {
    var l := Lines(InitCode);
    assert l[0] == "@256" && l[1] == "D=A" && l[2] == "@SP" && l[3] == "M=D";
  }

  lemma GotoLines(target: string)
    ensures Lines(GotoCode(target)) == ["@" + target, "0;JMP"]
  {
    assert Render(GotoCode(target)[1]) == "0;JMP";
  }

  lemma IfLines(target: string)
    ensures Lines(IfCode(target)) == ["@SP", "M=M-1", "@SP", "A=M", "D=M", "@" + target, "D;JNE"]
  {
    var l := Lines(IfCode(target));
    assert l[0] == "@SP" && l[1] == "M=M-1" && l[2] == "@SP" && l[3] == "A=M";
    assert l[4] == "D=M" && l[5] == "@" + target && l[6] == "D;JNE";
  }

  lemma LabelLine(name: string)
    ensures Lines([LInstr(name)]) == ["(" + name + ")"]
  {
  }

  /** push constant v: `@v`, `D=A`, then the push sequence. */
  lemma PushConstantLines(value: string)
    ensures PushCode("constant", value).Ok?
    ensures Lines(PushCode("constant", value).value) == ["@" + value, "D=A", "@SP", "A=M", "M=D", "@SP", "M=M+1"]
  {
    var l := Lines(PushValueCode(value));
    assert l[0] == "@" + value && l[1] == "D=A" && l[2] == "@SP" && l[3] == "A=M";
    assert l[4] == "M=D" && l[5] == "@SP" && l[6] == "M=M+1";
  }

  /** neg and not as written compute from D, not from the operand popped into A. */
  lemma UnaryLinesAsWritten(n: nat)
    ensures Lines(ArithmeticCode("neg", n).value)[5] == "D=-D"
    ensures Lines(ArithmeticCode("not", n).value)[5] == "D=!D"
  {
    assert ArithmeticCode("neg", n).value[5] == CInstr(Some("D"), "-D", None);
    assert ArithmeticCode("not", n).value[5] == CInstr(Some("D"), "!D", None);
  }

  /** `write_call` with the jump comp passed as the string "0": the prefix it writes as is,
      then `0;JMP` and the return label. */
  function CorrectedCallCode(functionName: string, numArgs: int, returnLabel: string): seq<Instr> {
    CallPrefixCode(functionName, numArgs, returnLabel) + [CInstr(None, "0", Some("JMP")), LInstr(returnLabel)]
  }

  /** The corrected call ends by jumping to the function and defining the return label right
      after the jump; the text before is what the call as written leaves in the file. */
  lemma CorrectedCallLines(functionName: string, numArgs: int, returnLabel: string)
    ensures var c := CorrectedCallCode(functionName, numArgs, returnLabel);
      var prefix := CallPrefixCode(functionName, numArgs, returnLabel);
      && |c| == |prefix| + 2
      && Lines(c)[..|prefix|] == Lines(prefix)
      && Lines(c)[|prefix| - 1..] == ["@" + functionName, "0;JMP", "(" + returnLabel + ")"]
  {
    var c := CorrectedCallCode(functionName, numArgs, returnLabel);
    var prefix := CallPrefixCode(functionName, numArgs, returnLabel);
    LinesConcat(prefix, [CInstr(None, "0", Some("JMP")), LInstr(returnLabel)]);
    assert Lines(c)[|prefix|] == "0;JMP";
    assert prefix[|prefix| - 1] == AInstr(functionName);
  }
}
