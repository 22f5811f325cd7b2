/**
 * What the code of the project-8 code writer does on the Hack machine. SP lives in RAM[0]
 * and the stack grows upward from it; `Sp(s)` is the stack pointer and `Top(s, k)` the
 * cell `k` places below it (`Top(s, 1)` is the top of the stack).
 *
 * Each lemma states the exact state after the fragment: the new stack pointer, the one
 * stack cell written, and the registers left behind. Preconditions keep the stack clear of
 * RAM[0] and below the top of memory, so no address wraps around.
 */
module StackEffects {
  import opened Wrappers
  import opened Text
  import opened HackAsm
  import opened HackMachine
  import opened CodeWriter08
  import SymbolTable

  function Sp(s: State): Word {
    Read(s.ram, 0)
  }

  function Top(s: State, k: nat): Word
    requires k <= Sp(s)
  {
    Read(s.ram, Sp(s) - k)
  }

  /** The environment agrees with the assembler's predefined symbols. */
  ghost predicate Predefined(env: map<string, Word>) {
    forall sym | sym in SymbolTable.Predefined :: sym in env && env[sym] == SymbolTable.Predefined[sym]
  }

  /** SP names RAM[0]: all the stack fragments need of the environment. */
  predicate SpRegister(env: map<string, Word>) {
    "SP" in env && env["SP"] == 0
  }

  /** The five VM pointers at their predefined addresses. */
  predicate Pointers(env: map<string, Word>) {
    SpRegister(env) && "LCL" in env && env["LCL"] == 1 && "ARG" in env && env["ARG"] == 2
    && "THIS" in env && env["THIS"] == 3 && "THAT" in env && env["THAT"] == 4
  }

  lemma PredefinedPointers(env: map<string, Word>)
    requires Predefined(env)
    ensures Pointers(env)
  {
    assert "SP" in SymbolTable.Predefined && "LCL" in SymbolTable.Predefined;
    assert "ARG" in SymbolTable.Predefined && "THIS" in SymbolTable.Predefined;
    assert "THAT" in SymbolTable.Predefined;
  }

  // ---------------------------------------------------------------------------------------
  // SP manipulation

  lemma DecSpEffect(env: map<string, Word>, s: State)
    requires SpRegister(env) && 1 <= Sp(s)
    ensures Straight(DecSpCode, env, s) == Some(s.(a := 0, ram := s.ram[0 := Sp(s) - 1], pc := s.pc + 2))
  {
    var s1 := s.(a := 0, pc := s.pc + 1);
    AtSp(env, s);
    StepComps(0, s.d, Sp(s));
    StraightPair(AInstr("SP"), CInstr(Some("M"), "M-1", None), env, s, s1,
                 s1.(ram := s.ram[0 := Sp(s) - 1], pc := s.pc + 2));
  }

  lemma IncSpEffect(env: map<string, Word>, s: State)
    requires SpRegister(env) && Sp(s) < 0xFFFF
    ensures Straight(IncSpCode, env, s) == Some(s.(a := 0, ram := s.ram[0 := Sp(s) + 1], pc := s.pc + 2))
  {
    var s1 := s.(a := 0, pc := s.pc + 1);
    AtSp(env, s);
    StepComps(0, s.d, Sp(s));
    StraightPair(AInstr("SP"), CInstr(Some("M"), "M+1", None), env, s, s1,
                 s1.(ram := s.ram[0 := Sp(s) + 1], pc := s.pc + 2));
  }

  /** `@SP` selects RAM[0]. */
  lemma AtSp(env: map<string, Word>, s: State)
    requires SpRegister(env)
    ensures Exec(AInstr("SP"), env, s) == Some(s.(a := 0, pc := s.pc + 1))
  {
    assert !IsDigit("SP"[0]);
  }

  /** `M+1` and `M-1` away from the ends of the word range. */
  lemma StepComps(a: Word, d: Word, m: Word)
    ensures m < 0xFFFF ==> EvalComp("M+1", a, d, m) == Some(m + 1)
    ensures 1 <= m ==> EvalComp("M-1", a, d, m) == Some(m - 1)
  {
    assert "M+1"[0] == 'M' && "M+1"[1] == '+' && "M+1"[2] == '1';
    assert "M-1"[0] == 'M' && "M-1"[1] == '-' && "M-1"[2] == '1';
  }

  lemma LoadSpEffect(env: map<string, Word>, s: State)
    requires SpRegister(env)
    ensures Straight(LoadSpCode, env, s) == Some(s.(a := Sp(s), pc := s.pc + 2))
  {
    var s1 := s.(a := 0, pc := s.pc + 1);
    AtSp(env, s);
    StraightPair(AInstr("SP"), CInstr(Some("A"), "M", None), env, s, s1, s1.(a := Sp(s), pc := s.pc + 2));
  }

  /** `_pop_to_dest("D")`: SP drops by one and D holds the old top. */
  lemma PopToDEffect(env: map<string, Word>, s: State)
    requires SpRegister(env) && 2 <= Sp(s)
    ensures Straight(PopToDestCode("D"), env, s)
         == Some(s.(a := Sp(s) - 1, d := Top(s, 1), ram := s.ram[0 := Sp(s) - 1], pc := s.pc + 5))
  {
    var s1 := s.(a := 0, ram := s.ram[0 := Sp(s) - 1], pc := s.pc + 2);
    DecSpEffect(env, s);
    var s2 := s1.(a := Sp(s1), pc := s1.pc + 2);
    LoadSpEffect(env, s1);
    StraightConcat(DecSpCode, LoadSpCode, env, s);
    assert Straight(DecSpCode + LoadSpCode, env, s) == Some(s2);
    assert Read(s2.ram, s2.a) == Top(s, 1);
    assert Straight([CInstr(Some("D"), "M", None)], env, s2) == Some(s2.(d := Top(s, 1), pc := s.pc + 5));
    StraightConcat(DecSpCode + LoadSpCode, [CInstr(Some("D"), "M", None)], env, s);
  }

  /** `_pop_to_dest("A")`: SP drops by one and A holds the old top; D is untouched. */
  lemma PopToAEffect(env: map<string, Word>, s: State)
    requires SpRegister(env) && 2 <= Sp(s)
    ensures Straight(PopToDestCode("A"), env, s)
         == Some(s.(a := Top(s, 1), ram := s.ram[0 := Sp(s) - 1], pc := s.pc + 5))
  {
    var s1 := s.(a := 0, ram := s.ram[0 := Sp(s) - 1], pc := s.pc + 2);
    DecSpEffect(env, s);
    var s2 := s1.(a := Sp(s1), pc := s1.pc + 2);
    LoadSpEffect(env, s1);
    StraightConcat(DecSpCode, LoadSpCode, env, s);
    assert Straight(DecSpCode + LoadSpCode, env, s) == Some(s2);
    assert Read(s2.ram, s2.a) == Top(s, 1);
    assert Straight([CInstr(Some("A"), "M", None)], env, s2) == Some(s2.(a := Top(s, 1), pc := s.pc + 5));
    StraightConcat(DecSpCode + LoadSpCode, [CInstr(Some("A"), "M", None)], env, s);
  }

  /** `_push_comp(comp)`: the value of comp (with A = SP) goes on top and SP grows by one. */
  lemma PushCompEffect(env: map<string, Word>, s: State, comp: string, v: Word)
    requires SpRegister(env) && 1 <= Sp(s) < 0xFFFF
    requires EvalComp(comp, Sp(s), s.d, Read(s.ram, Sp(s))) == Some(v)
    ensures Straight(PushCompCode(comp), env, s)
         == Some(s.(a := 0, ram := s.ram[Sp(s) := v][0 := Sp(s) + 1], pc := s.pc + 5))
  {
    LoadSpEffect(env, s);
    var s1 := s.(a := Sp(s), pc := s.pc + 2);
    var s2 := s1.(ram := s.ram[Sp(s) := v], pc := s.pc + 3);
    assert Straight([CInstr(Some("M"), comp, None)], env, s1) == Some(s2);
    assert Sp(s2) == Sp(s);
    IncSpEffect(env, s2);
    StraightConcat(LoadSpCode, [CInstr(Some("M"), comp, None)], env, s);
    StraightConcat(LoadSpCode + [CInstr(Some("M"), comp, None)], IncSpCode, env, s);
  }

  /** The first two steps of `_unary(comp)`: pop into A, then D=comp. */
  lemma PopAThenComp(env: map<string, Word>, s: State, comp: string, v: Word)
    requires SpRegister(env) && 2 <= Sp(s)
    requires EvalComp(comp, Top(s, 1), s.d, Read(s.ram[0 := Sp(s) - 1], Top(s, 1))) == Some(v)
    ensures Straight(PopToDestCode("A") + [CInstr(Some("D"), comp, None)], env, s)
         == Some(s.(a := Top(s, 1), d := v, ram := s.ram[0 := Sp(s) - 1], pc := s.pc + 6))
  {
    var s1 := s.(a := Top(s, 1), ram := s.ram[0 := Sp(s) - 1], pc := s.pc + 5);
    PopToAEffect(env, s);
    assert Straight([CInstr(Some("D"), comp, None)], env, s1) == Some(s1.(d := v, pc := s.pc + 6));
    StraightConcat(PopToDestCode("A"), [CInstr(Some("D"), comp, None)], env, s);
  }

  /** `_unary(comp)`: the top cell is replaced by comp evaluated with A = the old top and
      D = whatever D held on entry; SP is unchanged. */
  lemma UnaryEffect(env: map<string, Word>, s: State, comp: string, v: Word)
    requires SpRegister(env) && 2 <= Sp(s)
    requires EvalComp(comp, Top(s, 1), s.d, Read(s.ram[0 := Sp(s) - 1], Top(s, 1))) == Some(v)
    ensures Straight(UnaryCode(comp), env, s)
         == Some(s.(a := 0, d := v, ram := s.ram[Sp(s) - 1 := v], pc := s.pc + 11))
  {
    var sp := Sp(s);
    var head := PopToDestCode("A") + [CInstr(Some("D"), comp, None)];
    var s2 := s.(a := Top(s, 1), d := v, ram := s.ram[0 := sp - 1], pc := s.pc + 6);
    var s3 := s2.(a := 0, ram := s2.ram[sp - 1 := v][0 := sp], pc := s.pc + 11);
    assert Straight(head, env, s) == Some(s2) by {
      PopAThenComp(env, s, comp, v);
    }
    assert Straight(head + PushCompCode("D"), env, s) == Some(s3) by {
      assert Sp(s2) == sp - 1;
      PushCompEffect(env, s2, "D", v);
      StraightConcat(head, PushCompCode("D"), env, s);
    }
    assert s.ram[0 := sp - 1][sp - 1 := v][0 := sp] == s.ram[sp - 1 := v];
  }

  /** The comps `_binary` is given compute from A and D alone. */
  predicate BinaryComp(comp: string) {
    comp == "D+A" || comp == "A-D" || comp == "D&A" || comp == "D|A"
  }

  lemma BinaryCompIgnoresM(comp: string, a: Word, d: Word, m: Word)
    requires BinaryComp(comp)
    ensures EvalComp(comp, a, d, m).Some? && EvalComp(comp, a, d, m) == EvalComp(comp, a, d, 0)
  {
  }

  /** `_binary(comp)`: the two top cells are replaced by comp with A = the deeper operand
      and D = the top one; SP drops by one. */
  lemma BinaryEffect(env: map<string, Word>, s: State, comp: string)
    requires SpRegister(env) && 3 <= Sp(s) && BinaryComp(comp)
    ensures EvalComp(comp, Top(s, 2), Top(s, 1), 0).Some?
    ensures Straight(BinaryCode(comp), env, s)
         == Some(s.(a := 0, d := EvalComp(comp, Top(s, 2), Top(s, 1), 0).value,
                    ram := s.ram[Sp(s) - 2 := EvalComp(comp, Top(s, 2), Top(s, 1), 0).value][0 := Sp(s) - 1],
                    pc := s.pc + 16))
  {
    var sp := Sp(s);
    var m := Read(s.ram[0 := sp - 1][0 := sp - 2], Top(s, 2));
    BinaryCompIgnoresM(comp, Top(s, 2), Top(s, 1), m);
    var v := EvalComp(comp, Top(s, 2), Top(s, 1), 0).value;
    PopDThenUnary(env, s, comp, v);
    assert s.ram[0 := sp - 1][sp - 2 := v] == s.ram[sp - 2 := v][0 := sp - 1];
  }

  /** `_binary(comp)` for any comp, given its value with A = the deeper operand, D = the top one
      and M = the cell A addresses once SP has dropped twice. */
  lemma PopDThenUnary(env: map<string, Word>, s: State, comp: string, v: Word)
    requires SpRegister(env) && 3 <= Sp(s)
    requires EvalComp(comp, Top(s, 2), Top(s, 1), Read(s.ram[0 := Sp(s) - 1][0 := Sp(s) - 2], Top(s, 2))) == Some(v)
    ensures Straight(BinaryCode(comp), env, s)
         == Some(s.(a := 0, d := v, ram := s.ram[0 := Sp(s) - 1][Sp(s) - 2 := v], pc := s.pc + 16))
  {
    var sp := Sp(s);
    var s1 := s.(a := sp - 1, d := Top(s, 1), ram := s.ram[0 := sp - 1], pc := s.pc + 5);
    assert Straight(PopToDestCode("D"), env, s) == Some(s1) by {
      PopToDEffect(env, s);
    }
    assert Sp(s1) == sp - 1 && Top(s1, 1) == Top(s, 2);
    UnaryEffect(env, s1, comp, v);
    StraightConcat(PopToDestCode("D"), UnaryCode(comp), env, s);
  }

  // ---------------------------------------------------------------------------------------
  // Pushes

  /** `_push_value(value)`: the resolved value goes on top and SP grows by one. */
  lemma PushValueEffect(env: map<string, Word>, s: State, value: string, w: Word)
    requires SpRegister(env) && 1 <= Sp(s) < 0xFFFF && Resolve(value, env) == Some(w)
    ensures Straight(PushValueCode(value), env, s)
         == Some(s.(a := 0, d := w, ram := s.ram[Sp(s) := w][0 := Sp(s) + 1], pc := s.pc + 7))
  {
    var head := [AInstr(value), CInstr(Some("D"), "A", None)];
    var s1 := s.(a := w, d := w, pc := s.pc + 2);
    StraightPair(AInstr(value), CInstr(Some("D"), "A", None), env, s, s.(a := w, pc := s.pc + 1), s1);
    assert Straight(head + PushCompCode("D"), env, s)
        == Some(s1.(a := 0, ram := s.ram[Sp(s) := w][0 := Sp(s) + 1], pc := s.pc + 7)) by {
      PushCompEffect(env, s1, "D", w);
      StraightConcat(head, PushCompCode("D"), env, s);
    }
  }

  /** `_push_reg(reg)`: the cell the register symbol names goes on top. */
  lemma PushRegEffect(env: map<string, Word>, s: State, reg: string, r: Word)
    requires SpRegister(env) && 1 <= Sp(s) < 0xFFFF && Resolve(reg, env) == Some(r)
    ensures Straight(PushRegCode(reg), env, s)
         == Some(s.(a := 0, d := Read(s.ram, r), ram := s.ram[Sp(s) := Read(s.ram, r)][0 := Sp(s) + 1],
                    pc := s.pc + 7))
  {
    var head := [AInstr(reg), CInstr(Some("D"), "M", None)];
    var s1 := s.(a := r, d := Read(s.ram, r), pc := s.pc + 2);
    StraightPair(AInstr(reg), CInstr(Some("D"), "M", None), env, s, s.(a := r, pc := s.pc + 1), s1);
    assert Straight(head + PushCompCode("D"), env, s)
        == Some(s1.(a := 0, ram := s.ram[Sp(s) := Read(s.ram, r)][0 := Sp(s) + 1], pc := s.pc + 7)) by {
      PushCompEffect(env, s1, "D", Read(s.ram, r));
      StraightConcat(head, PushCompCode("D"), env, s);
    }
  }

  /** The address computation of `_push_mem(reg, offset)`: D := RAM[RAM[reg] + offset]. */
  lemma PushMemHead(env: map<string, Word>, s: State, reg: string, offset: string, r: Word, o: Word)
    requires Resolve(offset, env) == Some(o) && Resolve(reg, env) == Some(r)
    ensures Straight([AInstr(offset), CInstr(Some("D"), "A", None), AInstr(reg), CInstr(Some("A"), "M", None),
                      CInstr(Some("A"), "D+A", None), CInstr(Some("D"), "M", None)], env, s)
         == Some(s.(a := Add(o, Read(s.ram, r)), d := Read(s.ram, Add(o, Read(s.ram, r))), pc := s.pc + 6))
  {
    var s2 := s.(a := o, d := o, pc := s.pc + 2);
    StraightPair(AInstr(offset), CInstr(Some("D"), "A", None), env, s, s.(a := o, pc := s.pc + 1), s2);
    var s4 := s2.(a := Read(s.ram, r), pc := s.pc + 4);
    StraightPair(AInstr(reg), CInstr(Some("A"), "M", None), env, s2, s2.(a := r, pc := s.pc + 3), s4);
    var s6 := s4.(a := Add(o, Read(s.ram, r)), d := Read(s.ram, Add(o, Read(s.ram, r))), pc := s.pc + 6);
    StraightPair(CInstr(Some("A"), "D+A", None), CInstr(Some("D"), "M", None), env, s4,
                 s4.(a := Add(o, Read(s.ram, r)), pc := s.pc + 5), s6);
    StraightConcat([AInstr(offset), CInstr(Some("D"), "A", None)], [AInstr(reg), CInstr(Some("A"), "M", None)], env, s);
    assert [AInstr(offset), CInstr(Some("D"), "A", None)] + [AInstr(reg), CInstr(Some("A"), "M", None)]
        == [AInstr(offset), CInstr(Some("D"), "A", None), AInstr(reg), CInstr(Some("A"), "M", None)];
    StraightConcat([AInstr(offset), CInstr(Some("D"), "A", None), AInstr(reg), CInstr(Some("A"), "M", None)],
                   [CInstr(Some("A"), "D+A", None), CInstr(Some("D"), "M", None)], env, s);
    assert [AInstr(offset), CInstr(Some("D"), "A", None), AInstr(reg), CInstr(Some("A"), "M", None)]
           + [CInstr(Some("A"), "D+A", None), CInstr(Some("D"), "M", None)]
        == [AInstr(offset), CInstr(Some("D"), "A", None), AInstr(reg), CInstr(Some("A"), "M", None),
            CInstr(Some("A"), "D+A", None), CInstr(Some("D"), "M", None)];
  }

  /** `_push_mem(reg, offset)`: RAM[RAM[reg] + offset] goes on top. */
  lemma PushMemEffect(env: map<string, Word>, s: State, reg: string, offset: string, r: Word, o: Word)
    requires SpRegister(env) && 1 <= Sp(s) < 0xFFFF
    requires Resolve(offset, env) == Some(o) && Resolve(reg, env) == Some(r)
    ensures var v := Read(s.ram, Add(o, Read(s.ram, r)));
      Straight(PushMemCode(reg, offset), env, s)
         == Some(s.(a := 0, d := v, ram := s.ram[Sp(s) := v][0 := Sp(s) + 1], pc := s.pc + 11))
  {
    var v := Read(s.ram, Add(o, Read(s.ram, r)));
    var head := [AInstr(offset), CInstr(Some("D"), "A", None), AInstr(reg), CInstr(Some("A"), "M", None),
                 CInstr(Some("A"), "D+A", None), CInstr(Some("D"), "M", None)];
    var s1 := s.(a := Add(o, Read(s.ram, r)), d := v, pc := s.pc + 6);
    assert Straight(head, env, s) == Some(s1) by {
      PushMemHead(env, s, reg, offset, r, o);
    }
    assert PushMemCode(reg, offset) == head + PushCompCode("D");
    assert Straight(head + PushCompCode("D"), env, s)
        == Some(s1.(a := 0, ram := s.ram[Sp(s) := v][0 := Sp(s) + 1], pc := s.pc + 11)) by {
      PushCompEffect(env, s1, "D", v);
      StraightConcat(head, PushCompCode("D"), env, s);
    }
  }

  // ---------------------------------------------------------------------------------------
  // VM arithmetic

  predicate IsBinaryCommand(command: string) {
    command == "add" || command == "sub" || command == "and" || command == "or"
  }

  /** The VM meaning of a binary command on its operands, `x` the deeper one. */
  function VmBinary(command: string, x: Word, y: Word): Word
    requires IsBinaryCommand(command)
  {
    if command == "add" then Add(x, y)
    else if command == "sub" then Sub(x, y)
    else if command == "and" then And(x, y)
    else Or(x, y)
  }

  /** add, sub, and, or pop two operands and push `x op y`, `x` being the deeper one. */
  lemma BinaryCommandEffect(env: map<string, Word>, s: State, command: string, n: nat)
    requires SpRegister(env) && 3 <= Sp(s) && IsBinaryCommand(command)
    ensures ArithmeticCode(command, n).Ok?
    ensures var r := VmBinary(command, Top(s, 2), Top(s, 1));
      Straight(ArithmeticCode(command, n).value, env, s)
         == Some(s.(a := 0, d := r, ram := s.ram[Sp(s) - 2 := r][0 := Sp(s) - 1], pc := s.pc + 16))
  {
    var x, y := Top(s, 2), Top(s, 1);
    var comp := if command == "add" then "D+A" else if command == "sub" then "A-D"
                else if command == "and" then "D&A" else "D|A";
    assert ArithmeticCode(command, n) == Ok(BinaryCode(comp));
    assert EvalComp(comp, x, y, 0) == Some(VmBinary(command, x, y)) by {
      assert (x as bv16) & (y as bv16) == (y as bv16) & (x as bv16);
      assert (x as bv16) | (y as bv16) == (y as bv16) | (x as bv16);
    }
    BinaryEffect(env, s, comp);
  }

  predicate IsUnaryCommand(command: string) {
    command == "neg" || command == "not"
  }

  /** The VM meaning of a unary command on the top of the stack. */
  function VmUnary(command: string, x: Word): Word
    requires IsUnaryCommand(command)
  {
    if command == "neg" then Neg(x) else Not(x)
  }

  /** As written, neg and not replace the top of the stack by the negation of the D register
      on entry: the operand popped into A is never used. SP is unchanged. */
  lemma UnaryCommandAsWritten(env: map<string, Word>, s: State, command: string, n: nat)
    requires SpRegister(env) && 2 <= Sp(s) && IsUnaryCommand(command)
    ensures ArithmeticCode(command, n).Ok?
    ensures var r := VmUnary(command, s.d);
      Straight(ArithmeticCode(command, n).value, env, s)
         == Some(s.(a := 0, d := r, ram := s.ram[Sp(s) - 1 := r], pc := s.pc + 11))
  {
    var comp := if command == "neg" then "-D" else "!D";
    UnaryEffect(env, s, comp, VmUnary(command, s.d));
  }

  /** A stack holding 5 with D = 0 on entry: neg as written leaves 0 on top, not -5. */
  lemma NegLeavesWrongValue(env: map<string, Word>, s: State)
    requires SpRegister(env) && 2 <= Sp(s) && Top(s, 1) == 5 && s.d == 0
    ensures Straight(ArithmeticCode("neg", 0).value, env, s).Some?
    ensures Read(Straight(ArithmeticCode("neg", 0).value, env, s).value.ram, Sp(s) - 1) == 0
    ensures VmUnary("neg", Top(s, 1)) == 0xFFFB
  {
    assert ArithmeticCode("neg", 0) == Ok(UnaryCode("-D"));
    UnaryEffect(env, s, "-D", 0);
  }

  /** With the corrected comps, neg and not replace the top of the stack by its negation. */
  lemma UnaryCommandCorrected(env: map<string, Word>, s: State, command: string, n: nat)
    requires SpRegister(env) && 2 <= Sp(s) && IsUnaryCommand(command)
    ensures CorrectedArithmeticCode(command, n).Ok?
    ensures var r := VmUnary(command, Top(s, 1));
      Straight(CorrectedArithmeticCode(command, n).value, env, s)
         == Some(s.(a := 0, d := r, ram := s.ram[Sp(s) - 1 := r], pc := s.pc + 11))
  {
    var comp := if command == "neg" then "-A" else "!A";
    UnaryEffect(env, s, comp, VmUnary(command, Top(s, 1)));
  }

  // ---------------------------------------------------------------------------------------
  // Comparisons

  /** A drawn label is a symbol, never a numeral. */
  lemma LabelNotNumeral(k: nat)
    ensures !IsNumeral(LabelName(k))
  {
    assert LabelName(k)[0] == 'L';
  }

  predicate IsComparisonJump(jump: string) {
    jump == "JEQ" || jump == "JGT" || jump == "JLT"
  }

  /** Popping into D, then into A: D holds the top, A the cell below it, SP dropped by two. */
  lemma PopDThenAEffect(env: map<string, Word>, s: State)
    requires SpRegister(env) && 3 <= Sp(s)
    ensures Straight(PopToDestCode("D") + PopToDestCode("A"), env, s)
         == Some(s.(a := Top(s, 2), d := Top(s, 1), ram := s.ram[0 := Sp(s) - 2], pc := s.pc + 10))
  {
    var s1 := s.(a := Sp(s) - 1, d := Top(s, 1), ram := s.ram[0 := Sp(s) - 1], pc := s.pc + 5);
    PopToDEffect(env, s);
    SecondPopEffect(env, s);
    Chain(PopToDestCode("D"), PopToDestCode("A"), env, s, s1,
          s.(a := Top(s, 2), d := Top(s, 1), ram := s.ram[0 := Sp(s) - 2], pc := s.pc + 10));
  }

  /** A second pop, into A, in terms of the state before the first. */
  lemma SecondPopEffect(env: map<string, Word>, s: State)
    requires SpRegister(env) && 3 <= Sp(s)
    ensures Straight(PopToDestCode("A"), env, s.(a := Sp(s) - 1, d := Top(s, 1), ram := s.ram[0 := Sp(s) - 1], pc := s.pc + 5))
         == Some(s.(a := Top(s, 2), d := Top(s, 1), ram := s.ram[0 := Sp(s) - 2], pc := s.pc + 10))
  {
    SecondPop(s);
    PopToAEffect(env, s.(a := Sp(s) - 1, d := Top(s, 1), ram := s.ram[0 := Sp(s) - 1], pc := s.pc + 5));
  }

  /** The state after a second pop, in terms of the state before the first. */
  lemma SecondPop(s: State)
    requires 3 <= Sp(s)
    ensures var s1 := s.(a := Sp(s) - 1, d := Top(s, 1), ram := s.ram[0 := Sp(s) - 1], pc := s.pc + 5);
      2 <= Sp(s1)
      && s1.(a := Top(s1, 1), ram := s1.ram[0 := Sp(s1) - 1], pc := s1.pc + 5)
         == s.(a := Top(s, 2), d := Top(s, 1), ram := s.ram[0 := Sp(s) - 2], pc := s.pc + 10)
  {
    var sp := Sp(s);
    assert s.ram[0 := sp - 1][0 := sp - 2] == s.ram[0 := sp - 2];
  }

  /** Running `x` from `s` to `t` and then `y` from `t` to `u` runs `x + y` from `s` to `u`. */
  lemma Chain(x: seq<Instr>, y: seq<Instr>, env: map<string, Word>, s: State, t: State, u: State)
    requires Straight(x, env, s) == Some(t) && Straight(y, env, t) == Some(u)
    ensures Straight(x + y, env, s) == Some(u)
  {
    StraightConcat(x, y, env, s);
  }

  lemma DifferenceEffect(env: map<string, Word>, s: State)
    requires SpRegister(env) && 3 <= Sp(s)
    ensures Straight(DifferenceCode, env, s)
         == Some(s.(a := Top(s, 2), d := Sub(Top(s, 2), Top(s, 1)), ram := s.ram[0 := Sp(s) - 2], pc := s.pc + 11))
  {
    var s2 := s.(a := Top(s, 2), d := Top(s, 1), ram := s.ram[0 := Sp(s) - 2], pc := s.pc + 10);
    assert Straight(PopToDestCode("D") + PopToDestCode("A"), env, s) == Some(s2) by {
      PopDThenAEffect(env, s);
    }
    assert Straight([CInstr(Some("D"), "A-D", None)], env, s2) == Some(s2.(d := Sub(Top(s, 2), Top(s, 1)), pc := s.pc + 11));
    StraightConcat(PopToDestCode("D") + PopToDestCode("A"), [CInstr(Some("D"), "A-D", None)], env, s);
  }

  /** Where the pieces of `_comparison(jump)` sit when its code is placed at `p`. */
  lemma ComparisonLayout(prog: seq<Instr>, jump: string, n: nat, p: nat)
    requires PlacedAt(prog, ComparisonCode(jump, n), p)
    ensures PlacedAt(prog, DifferenceCode + [AInstr(LabelName(n))], p)
    ensures prog[p + 12] == CInstr(None, "D", Some(jump))
    ensures PlacedAt(prog, PushCompCode("0") + [AInstr(LabelName(n + 1))], p + 13)
    ensures prog[p + 19] == CInstr(None, "0", Some("JMP"))
    ensures PlacedAt(prog, [LInstr(LabelName(n))] + PushCompCode("-1") + [LInstr(LabelName(n + 1))], p + 20)
    ensures prog[p + 26] == LInstr(LabelName(n + 1))
  {
    var c := ComparisonCode(jump, n);
    ComparisonPieces(jump, n);
    PlacedSlice(prog, c, p, 0, 12);
    PlacedSlice(prog, c, p, 12, 13);
    PlacedSlice(prog, c, p, 13, 19);
    PlacedSlice(prog, c, p, 19, 20);
    PlacedSlice(prog, c, p, 20, 27);
    PlacedSlice(prog, c, p, 26, 27);
  }

  /** The pieces of `_comparison(jump)` by index. */
  lemma ComparisonPieces(jump: string, n: nat)
    ensures var c := ComparisonCode(jump, n);
      |c| == 27
      && c[0..12] == DifferenceCode + [AInstr(LabelName(n))]
      && c[12..13] == [CInstr(None, "D", Some(jump))]
      && c[13..19] == PushCompCode("0") + [AInstr(LabelName(n + 1))]
      && c[19..20] == [CInstr(None, "0", Some("JMP"))]
      && c[20..27] == [LInstr(LabelName(n))] + PushCompCode("-1") + [LInstr(LabelName(n + 1))]
      && c[26..27] == [LInstr(LabelName(n + 1))]
  {
    var x := DifferenceCode + [AInstr(LabelName(n))];
    var y := [CInstr(None, "D", Some(jump))];
    var z := PushCompCode("0") + [AInstr(LabelName(n + 1))];
    var w := [CInstr(None, "0", Some("JMP"))];
    var v := [LInstr(LabelName(n))] + PushCompCode("-1") + [LInstr(LabelName(n + 1))];
    assert ComparisonCode(jump, n) == x + y + z + w + v;
    assert |x| == 12 && |z| == 6 && |v| == 7;
    FivePieces(x, y, z, w, v);
    assert v[6..7] == [LInstr(LabelName(n + 1))];
  }

  /** The slices of a concatenation of five pieces. */
  lemma FivePieces<T>(x: seq<T>, y: seq<T>, z: seq<T>, w: seq<T>, v: seq<T>)
    ensures var c := x + y + z + w + v;
      var i, j, k := |x|, |x| + |y|, |x| + |y| + |z|;
      c[0..i] == x && c[i..j] == y && c[j..k] == z && c[k..k + |w|] == w && c[k + |w|..] == v
  {
  }

  /** A slice of placed code is the same slice of the program. */
  lemma PlacedSlice(prog: seq<Instr>, c: seq<Instr>, p: nat, i: nat, j: nat)
    requires PlacedAt(prog, c, p) && i <= j <= |c|
    ensures prog[p + i..p + j] == c[i..j]
    ensures i < j ==> prog[p + i] == c[i]
  {
    forall k | i <= k < j
      ensures prog[p + k] == c[k]
    {
      assert prog[p..p + |c|][k] == prog[p + k];
    }
    assert prog[p + i..p + j] == c[i..j];
  }

  /** The two labels of a comparison placed at `p` resolve to their own indices. */
  predicate ComparisonLabels(env: map<string, Word>, n: nat, p: nat) {
    && LabelName(n) in env && env[LabelName(n)] == p + 20
    && LabelName(n + 1) in env && env[LabelName(n + 1)] == p + 26
  }

  /** Whether the jump of `_comparison(jump)` fires for operands `x` (deeper) and `y`. */
  function ComparisonHolds(jump: string, x: Word, y: Word): bool
    requires IsComparisonJump(jump)
  {
    Jumps(Some(jump), Sub(x, y)).value
  }

  /** A comparison up to and including its conditional jump. */
  lemma ComparisonHead(prog: seq<Instr>, env: map<string, Word>, s: State, jump: string, n: nat)
    requires PlacedAt(prog, ComparisonCode(jump, n), s.pc) && IsComparisonJump(jump)
    requires SpRegister(env) && ComparisonLabels(env, n, s.pc) && 3 <= Sp(s)
    ensures Run(prog, env, s, 13)
         == Some(s.(a := s.pc + 20, d := Sub(Top(s, 2), Top(s, 1)), ram := s.ram[0 := Sp(s) - 2],
                    pc := if ComparisonHolds(jump, Top(s, 2), Top(s, 1)) then s.pc + 20 else s.pc + 13))
  {
    var p := s.pc;
    var s12 := s.(a := p + 20, d := Sub(Top(s, 2), Top(s, 1)), ram := s.ram[0 := Sp(s) - 2], pc := p + 12);
    ComparisonToJump(prog, env, s, jump, n);
    ComparisonLayout(prog, jump, n, p);
    ComparisonJump(prog, env, s12, jump, Top(s, 2), Top(s, 1));
    RunAdditive(prog, env, s, 12, 1);
  }

  /** The twelve steps before the conditional jump. */
  lemma ComparisonToJump(prog: seq<Instr>, env: map<string, Word>, s: State, jump: string, n: nat)
    requires PlacedAt(prog, ComparisonCode(jump, n), s.pc)
    requires SpRegister(env) && ComparisonLabels(env, n, s.pc) && 3 <= Sp(s)
    ensures Run(prog, env, s, 12)
         == Some(s.(a := s.pc + 20, d := Sub(Top(s, 2), Top(s, 1)), ram := s.ram[0 := Sp(s) - 2], pc := s.pc + 12))
  {
    ComparisonLayout(prog, jump, n, s.pc);
    DifferenceThenLabel(env, s, n);
    RunStraight(prog, DifferenceCode + [AInstr(LabelName(n))], env, s);
  }

  /** The conditional jump `D;jump`, with D = x - y. */
  lemma ComparisonJump(prog: seq<Instr>, env: map<string, Word>, t: State, jump: string, x: Word, y: Word)
    requires IsComparisonJump(jump) && t.pc < |prog| && prog[t.pc] == CInstr(None, "D", Some(jump))
    requires t.d == Sub(x, y)
    ensures Run(prog, env, t, 1) == Some(t.(pc := if ComparisonHolds(jump, x, y) then t.a as int else t.pc + 1))
  {
    RunOne(prog, env, t);
  }

  /** The difference, then `@L0`: A holds the label's index. */
  lemma DifferenceThenLabel(env: map<string, Word>, s: State, n: nat)
    requires SpRegister(env) && 3 <= Sp(s) && LabelName(n) in env
    ensures Straight(DifferenceCode + [AInstr(LabelName(n))], env, s)
         == Some(s.(a := env[LabelName(n)], d := Sub(Top(s, 2), Top(s, 1)), ram := s.ram[0 := Sp(s) - 2], pc := s.pc + 12))
  {
    var s11 := s.(a := Top(s, 2), d := Sub(Top(s, 2), Top(s, 1)), ram := s.ram[0 := Sp(s) - 2], pc := s.pc + 11);
    assert Straight(DifferenceCode, env, s) == Some(s11) by {
      DifferenceEffect(env, s);
    }
    assert Straight([AInstr(LabelName(n))], env, s11) == Some(s11.(a := env[LabelName(n)], pc := s.pc + 12)) by {
      LabelNotNumeral(n);
    }
    Chain(DifferenceCode, [AInstr(LabelName(n))], env, s, s11, s11.(a := env[LabelName(n)], pc := s.pc + 12));
  }

  /** The landing code of the true branch: `(L0)`, push -1, `(L1)`. */
  lemma TrueTailEffect(env: map<string, Word>, t: State, n: nat)
    requires SpRegister(env) && 1 <= Sp(t) < 0xFFFF
    ensures Straight([LInstr(LabelName(n))] + PushCompCode("-1") + [LInstr(LabelName(n + 1))], env, t)
         == Some(t.(a := 0, ram := t.ram[Sp(t) := TRUE][0 := Sp(t) + 1], pc := t.pc + 7))
  {
    var t1 := t.(pc := t.pc + 1);
    var t6 := t.(a := 0, ram := t.ram[Sp(t) := TRUE][0 := Sp(t) + 1], pc := t.pc + 6);
    assert Straight([LInstr(LabelName(n))] + PushCompCode("-1"), env, t) == Some(t6) by {
      assert Straight([LInstr(LabelName(n))], env, t) == Some(t1);
      PushCompEffect(env, t1, "-1", TRUE);
      StraightConcat([LInstr(LabelName(n))], PushCompCode("-1"), env, t);
    }
    assert Straight([LInstr(LabelName(n + 1))], env, t6) == Some(t6.(pc := t.pc + 7));
    StraightConcat([LInstr(LabelName(n))] + PushCompCode("-1"), [LInstr(LabelName(n + 1))], env, t);
  }

  /** The fall-through code of the false branch: push 0, then `@L1`. */
  lemma FalseMidEffect(env: map<string, Word>, t: State, n: nat)
    requires SpRegister(env) && 1 <= Sp(t) < 0xFFFF
    requires LabelName(n + 1) in env
    ensures Straight(PushCompCode("0") + [AInstr(LabelName(n + 1))], env, t)
         == Some(t.(a := env[LabelName(n + 1)], ram := t.ram[Sp(t) := FALSE][0 := Sp(t) + 1], pc := t.pc + 6))
  {
    LabelNotNumeral(n + 1);
    var t5 := t.(a := 0, ram := t.ram[Sp(t) := FALSE][0 := Sp(t) + 1], pc := t.pc + 5);
    assert Straight(PushCompCode("0"), env, t) == Some(t5) by {
      PushCompEffect(env, t, "0", FALSE);
    }
    assert Straight([AInstr(LabelName(n + 1))], env, t5) == Some(t5.(a := env[LabelName(n + 1)], pc := t.pc + 6));
    StraightConcat(PushCompCode("0"), [AInstr(LabelName(n + 1))], env, t);
  }

  /** When the jump fires: 20 steps, -1 on top, SP dropped by one. */
  lemma ComparisonWhenTrue(prog: seq<Instr>, env: map<string, Word>, s: State, jump: string, n: nat)
    requires PlacedAt(prog, ComparisonCode(jump, n), s.pc) && IsComparisonJump(jump)
    requires SpRegister(env) && ComparisonLabels(env, n, s.pc) && 3 <= Sp(s)
    requires ComparisonHolds(jump, Top(s, 2), Top(s, 1))
    ensures Run(prog, env, s, 20)
         == Some(s.(a := 0, d := Sub(Top(s, 2), Top(s, 1)), ram := s.ram[Sp(s) - 2 := TRUE][0 := Sp(s) - 1],
                    pc := s.pc + 27))
  {
    ComparisonHead(prog, env, s, jump, n);
    var d := Sub(Top(s, 2), Top(s, 1));
    TrueAfterPops(prog, env, s, d, jump, n);
    RunChain(prog, env, s, s.(a := s.pc + 20, d := d, ram := s.ram[0 := Sp(s) - 2], pc := s.pc + 20),
             s.(a := 0, d := d, ram := s.ram[Sp(s) - 2 := TRUE][0 := Sp(s) - 1], pc := s.pc + 27), 13, 7);
  }

  /** The true branch, from the state the comparison's head leaves. */
  lemma TrueAfterPops(prog: seq<Instr>, env: map<string, Word>, s: State, d: Word, jump: string, n: nat)
    requires PlacedAt(prog, ComparisonCode(jump, n), s.pc)
    requires SpRegister(env) && ComparisonLabels(env, n, s.pc) && 3 <= Sp(s)
    ensures Run(prog, env, s.(a := s.pc + 20, d := d, ram := s.ram[0 := Sp(s) - 2], pc := s.pc + 20), 7)
         == Some(s.(a := 0, d := d, ram := s.ram[Sp(s) - 2 := TRUE][0 := Sp(s) - 1], pc := s.pc + 27))
  {
    var p := s.pc;
    var t := s.(a := p + 20, d := d, ram := s.ram[0 := Sp(s) - 2], pc := p + 20);
    PopThenPush(s, t, d, TRUE, 0, p + 27);
    TrueBranchAt(prog, env, t, jump, n, p);
  }

  /** The true branch of comparison code placed at `p`, from its label at `p + 20`. */
  lemma TrueBranchAt(prog: seq<Instr>, env: map<string, Word>, t: State, jump: string, n: nat, p: nat)
    requires PlacedAt(prog, ComparisonCode(jump, n), p) && t.pc == p + 20
    requires SpRegister(env) && 1 <= Sp(t) < 0xFFFF
    ensures Run(prog, env, t, 7)
         == Some(t.(a := 0, ram := t.ram[Sp(t) := TRUE][0 := Sp(t) + 1], pc := p + 27))
  {
    ComparisonLayout(prog, jump, n, p);
    TrueBranchRun(prog, env, t, n);
  }

  /** Two runs one after the other are one run. */
  lemma RunChain(prog: seq<Instr>, env: map<string, Word>, s: State, t: State, u: State, m: nat, n: nat)
    requires Run(prog, env, s, m) == Some(t) && Run(prog, env, t, n) == Some(u)
    ensures Run(prog, env, s, m + n) == Some(u)
  {
    RunAdditive(prog, env, s, m, n);
  }

  /** The true branch from its label: `(L0)`, push -1, `(L1)`. */
  lemma TrueBranchRun(prog: seq<Instr>, env: map<string, Word>, t: State, n: nat)
    requires SpRegister(env) && 1 <= Sp(t) < 0xFFFF
    requires PlacedAt(prog, [LInstr(LabelName(n))] + PushCompCode("-1") + [LInstr(LabelName(n + 1))], t.pc)
    ensures Run(prog, env, t, 7)
         == Some(t.(a := 0, ram := t.ram[Sp(t) := TRUE][0 := Sp(t) + 1], pc := t.pc + 7))
  {
    TrueTailEffect(env, t, n);
    RunStraight(prog, [LInstr(LabelName(n))] + PushCompCode("-1") + [LInstr(LabelName(n + 1))], env, t);
  }

  /** Popping two operands and pushing a result: SP is two lower in between, and the result
      overwrites the first operand's cell. */
  lemma PopThenPush(s: State, t: State, d: Word, v: Word, a': Word, pc': nat)
    requires 3 <= Sp(s) && t.d == d && t.ram == s.ram[0 := Sp(s) - 2]
    ensures Sp(t) == Sp(s) - 2
    ensures t.(a := a', ram := t.ram[Sp(t) := v][0 := Sp(t) + 1], pc := pc')
         == s.(a := a', d := d, ram := s.ram[Sp(s) - 2 := v][0 := Sp(s) - 1], pc := pc')
  {
    assert t.ram[Sp(t) := v][0 := Sp(t) + 1] == s.ram[Sp(s) - 2 := v][0 := Sp(s) - 1];
  }

  /** The false branch from the fall-through: push 0, `@L1`, `0;JMP`, then `(L1)`. */
  lemma FalseBranchRun(prog: seq<Instr>, env: map<string, Word>, t: State, n: nat)
    requires SpRegister(env) && 1 <= Sp(t) < 0xFFFF && LabelName(n + 1) in env
    requires PlacedAt(prog, PushCompCode("0") + [AInstr(LabelName(n + 1))], t.pc)
    requires t.pc + 6 < |prog| && prog[t.pc + 6] == CInstr(None, "0", Some("JMP"))
    requires env[LabelName(n + 1)] < |prog| && prog[env[LabelName(n + 1)]] == LInstr(LabelName(n + 1))
    ensures Run(prog, env, t, 8)
         == Some(t.(a := env[LabelName(n + 1)], ram := t.ram[Sp(t) := FALSE][0 := Sp(t) + 1],
                    pc := env[LabelName(n + 1)] as int + 1))
  {
    var w: nat := env[LabelName(n + 1)];
    var t6 := t.(a := w, ram := t.ram[Sp(t) := FALSE][0 := Sp(t) + 1], pc := t.pc + 6);
    FalseMidRun(prog, env, t, n);
    JumpThenLabel(prog, env, t6);
    RunAdditive(prog, env, t, 6, 2);
  }

  /** Push 0 and `@L1`: six steps. */
  lemma FalseMidRun(prog: seq<Instr>, env: map<string, Word>, t: State, n: nat)
    requires SpRegister(env) && 1 <= Sp(t) < 0xFFFF && LabelName(n + 1) in env
    requires PlacedAt(prog, PushCompCode("0") + [AInstr(LabelName(n + 1))], t.pc)
    ensures Run(prog, env, t, 6)
         == Some(t.(a := env[LabelName(n + 1)], ram := t.ram[Sp(t) := FALSE][0 := Sp(t) + 1],
                    pc := t.pc + 6))
  {
    FalseMidEffect(env, t, n);
    RunStraight(prog, PushCompCode("0") + [AInstr(LabelName(n + 1))], env, t);
  }

  /** `0;JMP` to the A register, landing on a label. */
  lemma JumpThenLabel(prog: seq<Instr>, env: map<string, Word>, t: State)
    requires t.pc < |prog| && prog[t.pc] == CInstr(None, "0", Some("JMP"))
    requires t.a < |prog| && prog[t.a].LInstr?
    ensures Run(prog, env, t, 2) == Some(t.(pc := t.a as int + 1))
  {
    var t1 := t.(pc := t.a);
    assert Run(prog, env, t, 1) == Some(t1) by {
      RunOne(prog, env, t);
    }
    assert Run(prog, env, t1, 1) == Some(t1.(pc := t.a as int + 1)) by {
      RunOne(prog, env, t1);
    }
    RunAdditive(prog, env, t, 1, 1);
  }

  /** When the jump does not fire: 21 steps, 0 on top, SP dropped by one. */
  lemma ComparisonWhenFalse(prog: seq<Instr>, env: map<string, Word>, s: State, jump: string, n: nat)
    requires PlacedAt(prog, ComparisonCode(jump, n), s.pc) && IsComparisonJump(jump)
    requires SpRegister(env) && ComparisonLabels(env, n, s.pc) && 3 <= Sp(s)
    requires !ComparisonHolds(jump, Top(s, 2), Top(s, 1))
    ensures Run(prog, env, s, 21)
         == Some(s.(a := s.pc + 26, d := Sub(Top(s, 2), Top(s, 1)), ram := s.ram[Sp(s) - 2 := FALSE][0 := Sp(s) - 1],
                    pc := s.pc + 27))
  {
    ComparisonHead(prog, env, s, jump, n);
    var d := Sub(Top(s, 2), Top(s, 1));
    FalseAfterPops(prog, env, s, d, jump, n);
    RunChain(prog, env, s, s.(a := s.pc + 20, d := d, ram := s.ram[0 := Sp(s) - 2], pc := s.pc + 13),
             s.(a := s.pc + 26, d := d, ram := s.ram[Sp(s) - 2 := FALSE][0 := Sp(s) - 1], pc := s.pc + 27), 13, 8);
  }

  /** The false branch, from the state the comparison's head leaves. */
  lemma FalseAfterPops(prog: seq<Instr>, env: map<string, Word>, s: State, d: Word, jump: string, n: nat)
    requires PlacedAt(prog, ComparisonCode(jump, n), s.pc)
    requires SpRegister(env) && ComparisonLabels(env, n, s.pc) && 3 <= Sp(s)
    ensures Run(prog, env, s.(a := s.pc + 20, d := d, ram := s.ram[0 := Sp(s) - 2], pc := s.pc + 13), 8)
         == Some(s.(a := s.pc + 26, d := d, ram := s.ram[Sp(s) - 2 := FALSE][0 := Sp(s) - 1], pc := s.pc + 27))
  {
    var p := s.pc;
    var t := s.(a := p + 20, d := d, ram := s.ram[0 := Sp(s) - 2], pc := p + 13);
    PopThenPush(s, t, d, FALSE, p + 26, p + 27);
    FalseBranchAt(prog, env, t, jump, n, p);
  }

  /** The false branch of comparison code placed at `p`, from its fall-through at `p + 13`. */
  lemma FalseBranchAt(prog: seq<Instr>, env: map<string, Word>, t: State, jump: string, n: nat, p: nat)
    requires PlacedAt(prog, ComparisonCode(jump, n), p) && t.pc == p + 13
    requires SpRegister(env) && ComparisonLabels(env, n, p) && 1 <= Sp(t) < 0xFFFF
    ensures Run(prog, env, t, 8)
         == Some(t.(a := p + 26, ram := t.ram[Sp(t) := FALSE][0 := Sp(t) + 1], pc := p + 27))
  {
    ComparisonLayout(prog, jump, n, p);
    FalseBranchRun(prog, env, t, n);
  }

  /** A comparison leaves -1 on top when its jump fires and 0 otherwise; SP drops by one and
      the program counter ends just past the code, after 20 or 21 steps. */
  lemma ComparisonEffect(prog: seq<Instr>, env: map<string, Word>, s: State, jump: string, n: nat)
    requires PlacedAt(prog, ComparisonCode(jump, n), s.pc) && IsComparisonJump(jump)
    requires SpRegister(env) && ComparisonLabels(env, n, s.pc) && 3 <= Sp(s)
    ensures var holds := ComparisonHolds(jump, Top(s, 2), Top(s, 1));
      Run(prog, env, s, if holds then 20 else 21)
         == Some(s.(a := if holds then 0 else s.pc + 26, d := Sub(Top(s, 2), Top(s, 1)),
                    ram := s.ram[Sp(s) - 2 := if holds then TRUE else FALSE][0 := Sp(s) - 1],
                    pc := s.pc + 27))
  {
    if ComparisonHolds(jump, Top(s, 2), Top(s, 1)) {
      ComparisonWhenTrue(prog, env, s, jump, n);
    } else {
      ComparisonWhenFalse(prog, env, s, jump, n);
    }
  }

  /** The VM meaning of eq, gt and lt on two's-complement operands, `x` the deeper one. */
  function VmCompare(jump: string, x: Word, y: Word): bool
    requires IsComparisonJump(jump)
  {
    if jump == "JEQ" then Signed(x) == Signed(y)
    else if jump == "JGT" then Signed(x) > Signed(y)
    else Signed(x) < Signed(y)
  }

  /** The 16-bit difference read as signed is the true difference when that fits in 16 bits. */
  lemma SignedSub(x: Word, y: Word)
    requires -0x8000 <= Signed(x) - Signed(y) < 0x8000
    ensures Signed(Sub(x, y)) == Signed(x) - Signed(y)
  {
    var d := Signed(x) - Signed(y);
    var k := (x - y) - d;
    assert k == 0 || k == 0x10000 || k == -0x10000;
    if d >= 0 {
      assert Sub(x, y) == d;
    } else {
      assert Sub(x, y) == d + 0x10000;
    }
  }

  /** The comparison is the VM comparison whenever `x - y` does not overflow. */
  lemma ComparisonWithoutOverflow(jump: string, x: Word, y: Word)
    requires IsComparisonJump(jump)
    requires -0x8000 <= Signed(x) - Signed(y) < 0x8000
    ensures ComparisonHolds(jump, x, y) == VmCompare(jump, x, y)
  {
    SignedSub(x, y);
  }

  /** eq is exact for all operands. */
  lemma EqualityExact(x: Word, y: Word)
    ensures ComparisonHolds("JEQ", x, y) <==> x == y
  {
    if x != y {
      assert Sub(x, y) != 0;
    }
  }

  /** gt on 20000 and -20000: the difference 40000 overflows, reads as negative, and the
      comparison gives false. */
  lemma GreaterOverflows()
    ensures Signed(45536) == -20000
    ensures VmCompare("JGT", 20000, 45536)
    ensures !ComparisonHolds("JGT", 20000, 45536)
  {
    assert Sub(20000, 45536) == 40000;
  }

  // ---------------------------------------------------------------------------------------
  // Segments

  /** push constant c, for a numeral c: the value of c (low 15 bits, as `@c` loads) goes on top. */
  lemma PushConstantEffect(env: map<string, Word>, s: State, index: string)
    requires SpRegister(env) && 1 <= Sp(s) < 0xFFFF && IsNumeral(index)
    ensures PushCode("constant", index).Ok?
    ensures var w := ParseDecimal(index) % 0x8000;
      Straight(PushCode("constant", index).value, env, s)
         == Some(s.(a := 0, d := w, ram := s.ram[Sp(s) := w][0 := Sp(s) + 1], pc := s.pc + 7))
  {
    PushValueEffect(env, s, index, ParseDecimal(index) % 0x8000);
  }

  /** push argument/local/this/that i: the cell i places above the segment's base goes on top. */
  lemma PushSegmentEffect(env: map<string, Word>, s: State, segment: string, index: string)
    requires Pointers(env) && 1 <= Sp(s) < 0xFFFF && IsNumeral(index)
    requires segment in BaseRegister
    ensures PushCode(segment, index).Ok?
    ensures var base := env[BaseRegister[segment]];
      var v := Read(s.ram, Add(ParseDecimal(index) % 0x8000, Read(s.ram, base)));
      Straight(PushCode(segment, index).value, env, s)
         == Some(s.(a := 0, d := v, ram := s.ram[Sp(s) := v][0 := Sp(s) + 1], pc := s.pc + 11))
  {
    var reg := BaseRegister[segment];
    assert reg in env by {
      assert reg == "ARG" || reg == "LCL" || reg == "THIS" || reg == "THAT";
    }
    assert !IsNumeral(reg) by {
      assert reg[0] == 'A' || reg[0] == 'L' || reg[0] == 'T';
    }
    PushMemEffect(env, s, reg, index, env[reg], ParseDecimal(index) % 0x8000);
  }

  /** push temp i, for 0 <= i <= 7: RAM[5 + i] goes on top. */
  lemma PushTempEffect(env: map<string, Word>, s: State, index: string)
    requires Predefined(env) && 1 <= Sp(s) < 0xFFFF && IsNumeral(index) && ParseDecimal(index) <= 7
    ensures PushCode("temp", index).Ok?
    ensures var v := Read(s.ram, 5 + ParseDecimal(index));
      Straight(PushCode("temp", index).value, env, s)
         == Some(s.(a := 0, d := v, ram := s.ram[Sp(s) := v][0 := Sp(s) + 1], pc := s.pc + 7))
  {
    var k := 5 + ParseDecimal(index);
    var reg := "R" + Decimal(k);
    SymbolTable.PredefinedRegisters(k);
    assert reg in env && env[reg] == k;
    assert !IsNumeral(reg) by {
      assert reg[0] == 'R';
    }
    PredefinedPointers(env);
    PushRegEffect(env, s, reg, k);
  }

  /** push pointer 0 and 1 with the index test corrected: RAM[THIS] or RAM[THAT] goes on top. */
  lemma CorrectedPushPointerEffect(env: map<string, Word>, s: State, index: string)
    requires Pointers(env) && 1 <= Sp(s) < 0xFFFF && (index == "0" || index == "1")
    ensures CorrectedPushCode("pointer", index).Ok?
    ensures var v := Read(s.ram, if index == "0" then 3 else 4);
      Straight(CorrectedPushCode("pointer", index).value, env, s)
         == Some(s.(a := 0, d := v, ram := s.ram[Sp(s) := v][0 := Sp(s) + 1], pc := s.pc + 7))
  {
    var reg := if index == "0" then "THIS" else "THAT";
    assert !IsNumeral(reg) by {
      assert reg[0] == 'T';
    }
    PushRegEffect(env, s, reg, env[reg]);
  }

  // ---------------------------------------------------------------------------------------
  // Bootstrap and branching

  /** `write_init`: SP := 256. */
  lemma InitEffect(env: map<string, Word>, s: State)
    requires SpRegister(env)
    ensures Straight(InitCode, env, s) == Some(s.(a := 0, d := 256, ram := s.ram[0 := 256], pc := s.pc + 4))
  {
    Resolve256(env);
    var s2 := s.(a := 256, d := 256, pc := s.pc + 2);
    StraightPair(AInstr("256"), CInstr(Some("D"), "A", None), env, s, s.(a := 256, pc := s.pc + 1), s2);
    var s4 := s2.(a := 0, ram := s.ram[0 := 256], pc := s.pc + 4);
    StraightPair(AInstr("SP"), CInstr(Some("M"), "D", None), env, s2, s2.(a := 0, pc := s.pc + 3), s4);
    StraightConcat([AInstr("256"), CInstr(Some("D"), "A", None)], [AInstr("SP"), CInstr(Some("M"), "D", None)], env, s);
    assert InitCode == [AInstr("256"), CInstr(Some("D"), "A", None)] + [AInstr("SP"), CInstr(Some("M"), "D", None)];
  }

  lemma Resolve256(env: map<string, Word>)
    ensures Resolve("256", env) == Some(256)
  {
    assert IsNumeral("256") by {
      assert IsDigit("256"[0]) && IsDigit("256"[1]) && IsDigit("256"[2]);
    }
    assert ParseDecimal("256") == 256 by {
      assert "256"[..2] == "25" && "25"[..1] == "2";
    }
  }

  /** `write_goto(L)`: two steps land just past the label's own index. */
  lemma GotoEffect(prog: seq<Instr>, env: map<string, Word>, s: State, target: string, w: Word)
    requires PlacedAt(prog, GotoCode(target), s.pc)
    requires Resolve(target, env) == Some(w) && w < |prog| && prog[w] == LInstr(target)
    ensures Run(prog, env, s, 3) == Some(s.(a := w, pc := w as int + 1))
  {
    assert prog[s.pc] == AInstr(target) && prog[s.pc + 1] == CInstr(None, "0", Some("JMP")) by {
      assert prog[s.pc..s.pc + 2] == GotoCode(target);
    }
    var t := s.(a := w, pc := s.pc + 1);
    assert Run(prog, env, s, 1) == Some(t) by {
      RunOne(prog, env, s);
    }
    JumpThenLabel(prog, env, t);
    RunAdditive(prog, env, s, 1, 2);
  }

  /** `write_if(L)`: the top is popped; the jump fires exactly when it is non-zero. */
  lemma IfHead(env: map<string, Word>, s: State, target: string, w: Word)
    requires SpRegister(env) && 2 <= Sp(s) && Resolve(target, env) == Some(w)
    ensures Straight(PopToDestCode("D") + [AInstr(target)], env, s)
         == Some(s.(a := w, d := Top(s, 1), ram := s.ram[0 := Sp(s) - 1], pc := s.pc + 6))
  {
    var s5 := s.(a := Sp(s) - 1, d := Top(s, 1), ram := s.ram[0 := Sp(s) - 1], pc := s.pc + 5);
    PopToDEffect(env, s);
    assert Straight([AInstr(target)], env, s5) == Some(s5.(a := w, pc := s.pc + 6));
    StraightConcat(PopToDestCode("D"), [AInstr(target)], env, s);
  }

  lemma IfEffect(prog: seq<Instr>, env: map<string, Word>, s: State, target: string, w: Word)
    requires PlacedAt(prog, IfCode(target), s.pc)
    requires SpRegister(env) && 2 <= Sp(s) && Resolve(target, env) == Some(w)
    ensures Run(prog, env, s, 7)
         == Some(s.(a := w, d := Top(s, 1), ram := s.ram[0 := Sp(s) - 1],
                    pc := if Top(s, 1) != 0 then w as int else s.pc + 7))
  {
    var head := PopToDestCode("D") + [AInstr(target)];
    assert IfCode(target) == head + [CInstr(None, "D", Some("JNE"))];
    PlacedSplit(prog, head, [CInstr(None, "D", Some("JNE"))], s.pc);
    var s6 := s.(a := w, d := Top(s, 1), ram := s.ram[0 := Sp(s) - 1], pc := s.pc + 6);
    IfHead(env, s, target, w);
    RunStraight(prog, head, env, s);
    assert prog[s.pc + 6] == CInstr(None, "D", Some("JNE")) by {
      assert prog[s.pc + 6..s.pc + 7] == [CInstr(None, "D", Some("JNE"))];
    }
    assert Run(prog, env, s6, 1) == Some(s6.(pc := if Top(s, 1) != 0 then w as int else s.pc + 7)) by {
      RunOne(prog, env, s6);
      assert Signed(Top(s, 1)) != 0 <==> Top(s, 1) != 0;
    }
    RunAdditive(prog, env, s, 6, 1);
  }

  // ---------------------------------------------------------------------------------------
  // Functions

  /** `k` pushes of zero. */
  function PushedZeros(s: State, k: nat): State
    requires Sp(s) + k < 0x10000
    decreases k
  {
    if k == 0 then s
    else
      var t := PushedZeros(s, k - 1);
      t.(a := 0, d := 0, ram := t.ram[Sp(s) + k - 1 := 0][0 := Sp(s) + k], pc := t.pc + 7)
  }

  lemma {:induction false} PushedZerosSp(s: State, k: nat)
    requires Sp(s) + k < 0x10000
    ensures Sp(PushedZeros(s, k)) == Sp(s) + k
    ensures PushedZeros(s, k).pc == s.pc + 7 * k
    decreases k
  {
    if k > 0 {
      PushedZerosSp(s, k - 1);
    }
  }

  /** The body `write_function` emits for k locals pushes k zeros: SP grows by k. */
  lemma {:induction false} ZeroFillEffect(env: map<string, Word>, s: State, k: nat)
    requires SpRegister(env) && 1 <= Sp(s) && Sp(s) + k < 0xFFFF
    ensures Straight(Repeat(PushValueCode("0"), k), env, s) == Some(PushedZeros(s, k))
    decreases k
  {
    if k > 0 {
      ZeroFillEffect(env, s, k - 1);
      ZeroFillStep(env, s, k);
    }
  }

  /** One more push of zero after `k - 1` of them. */
  lemma ZeroFillStep(env: map<string, Word>, s: State, k: nat)
    requires SpRegister(env) && 1 <= Sp(s) && 0 < k && Sp(s) + k < 0xFFFF
    requires Straight(Repeat(PushValueCode("0"), k - 1), env, s) == Some(PushedZeros(s, k - 1))
    ensures Straight(Repeat(PushValueCode("0"), k), env, s) == Some(PushedZeros(s, k))
  {
    ZeroPush(env, s, k);
    Chain(Repeat(PushValueCode("0"), k - 1), PushValueCode("0"), env, s, PushedZeros(s, k - 1), PushedZeros(s, k));
  }

  /** The `k`-th push of zero. */
  lemma ZeroPush(env: map<string, Word>, s: State, k: nat)
    requires SpRegister(env) && 1 <= Sp(s) && 0 < k && Sp(s) + k < 0xFFFF
    ensures Straight(PushValueCode("0"), env, PushedZeros(s, k - 1)) == Some(PushedZeros(s, k))
  {
    var t := PushedZeros(s, k - 1);
    PushedZerosNext(s, k);
    ResolveZero(env);
    PushValueEffect(env, t, "0", 0);
  }

  /** The `k`-th push in terms of the stack pointer after `k - 1`. */
  lemma PushedZerosNext(s: State, k: nat)
    requires 0 < k && Sp(s) + k < 0x10000
    ensures var t := PushedZeros(s, k - 1);
      Sp(t) == Sp(s) + k - 1
      && PushedZeros(s, k) == t.(a := 0, d := 0, ram := t.ram[Sp(t) := 0][0 := Sp(t) + 1], pc := t.pc + 7)
  {
    PushedZerosSp(s, k - 1);
  }

  lemma ResolveZero(env: map<string, Word>)
    ensures Resolve("0", env) == Some(0)
  {
    assert IsNumeral("0") by {
      assert IsDigit("0"[0]);
    }
  }

  /** Every cell the zero fill writes above the old SP holds 0, the cells below are untouched. */
  lemma {:induction false} PushedZerosCells(s: State, k: nat, addr: Word)
    requires 1 <= Sp(s) && Sp(s) + k < 0x10000 && addr != 0
    ensures Read(PushedZeros(s, k).ram, addr)
         == if Sp(s) <= addr < Sp(s) + k then 0 else Read(s.ram, addr)
    decreases k
  {
    if k > 0 {
      PushedZerosCells(s, k - 1, addr);
    }
  }

  /** `write_function(f, k)`: the label, then k locals initialised to 0 on the stack. */
  lemma FunctionEffect(env: map<string, Word>, s: State, f: string, k: nat)
    requires SpRegister(env) && 1 <= Sp(s) && Sp(s) + k < 0xFFFF
    ensures Straight(FunctionCode(f, k), env, s) == Some(PushedZeros(s.(pc := s.pc + 1), k))
  {
    var s1 := s.(pc := s.pc + 1);
    assert Straight([LInstr(f)], env, s) == Some(s1);
    ZeroFillEffect(env, s1, k);
    StraightConcat([LInstr(f)], Repeat(PushValueCode("0"), k), env, s);
  }

  // ---------------------------------------------------------------------------------------
  // Call

  /** The state one `_push_value` or `_push_reg` of `w` leaves. */
  function Pushed(s: State, w: Word): State
    requires Sp(s) < 0xFFFF
  {
    s.(a := 0, d := w, ram := s.ram[Sp(s) := w][0 := Sp(s) + 1], pc := s.pc + 7)
  }

  /** The five pointer symbols name RAM[0] to RAM[4]. */
  lemma ResolvePointers(env: map<string, Word>)
    requires Pointers(env)
    ensures Resolve("SP", env) == Some(0) && Resolve("LCL", env) == Some(1)
    ensures Resolve("ARG", env) == Some(2) && Resolve("THIS", env) == Some(3)
    ensures Resolve("THAT", env) == Some(4)
  {
    assert !IsDigit("SP"[0]) && !IsDigit("LCL"[0]) && !IsDigit("ARG"[0]);
    assert !IsDigit("THIS"[0]) && !IsDigit("THAT"[0]);
  }

  /** The frame as `write_call` saves it: the return address, then LCL, ARG, THIS and THAT,
      each read just before it is pushed. */
  function SavedFrame(s: State, ret: Word): State
    requires Sp(s) + 5 < 0xFFFF
  {
    var s1 := Pushed(s, ret);
    var s2 := Pushed(s1, Read(s1.ram, 1));
    var s3 := Pushed(s2, Read(s2.ram, 2));
    var s4 := Pushed(s3, Read(s3.ram, 3));
    Pushed(s4, Read(s4.ram, 4))
  }

  /** One more `_push_reg` after a fragment. */
  lemma PushRegStep(x: seq<Instr>, env: map<string, Word>, s: State, t: State, reg: string, r: Word)
    requires Straight(x, env, s) == Some(t)
    requires SpRegister(env) && 1 <= Sp(t) < 0xFFFF && Resolve(reg, env) == Some(r)
    ensures Straight(x + PushRegCode(reg), env, s) == Some(Pushed(t, Read(t.ram, r)))
  {
    PushRegEffect(env, t, reg, r);
    Chain(x, PushRegCode(reg), env, s, t, Pushed(t, Read(t.ram, r)));
  }

  /** The five pushes of the frame, chained. */
  lemma FrameEffect(env: map<string, Word>, s: State, returnLabel: string, ret: Word)
    requires Pointers(env) && 1 <= Sp(s) && Sp(s) + 5 < 0xFFFF
    requires Resolve(returnLabel, env) == Some(ret)
    ensures Straight(FrameCode(returnLabel), env, s) == Some(SavedFrame(s, ret))
  {
    ResolvePointers(env);
    var x1 := PushValueCode(returnLabel);
    var x2 := x1 + PushRegCode("LCL");
    var x3 := x2 + PushRegCode("ARG");
    var x4 := x3 + PushRegCode("THIS");
    var s1 := Pushed(s, ret);
    var s2 := Pushed(s1, Read(s1.ram, 1));
    var s3 := Pushed(s2, Read(s2.ram, 2));
    var s4 := Pushed(s3, Read(s3.ram, 3));
    assert Straight(x1, env, s) == Some(s1) by {
      PushValueEffect(env, s, returnLabel, ret);
    }
    assert Straight(x2, env, s) == Some(s2) by {
      PushRegStep(x1, env, s, s1, "LCL", 1);
    }
    assert Straight(x3, env, s) == Some(s3) by {
      PushRegStep(x2, env, s, s2, "ARG", 2);
    }
    assert Straight(x4, env, s) == Some(s4) by {
      PushRegStep(x3, env, s, s3, "THIS", 3);
    }
    PushRegStep(x4, env, s, s4, "THAT", 4);
  }

  /** What one push does to a cell. */
  lemma PushedRead(t: State, w: Word, addr: Word)
    requires Sp(t) < 0xFFFF
    ensures Read(Pushed(t, w).ram, addr)
         == if addr == 0 then Sp(t) + 1 else if addr == Sp(t) then w else Read(t.ram, addr)
  {
  }

  /** The word the frame holds `k` places above the old SP: the return address, then the
      values of LCL, ARG, THIS and THAT. */
  function FrameWord(s: State, ret: Word, k: nat): Word
    requires k < 5
  {
    if k == 0 then ret else Read(s.ram, k)
  }

  lemma SavedFrameRead(s: State, ret: Word, addr: Word)
    requires 5 <= Sp(s) && Sp(s) + 5 < 0xFFFF
    ensures Read(SavedFrame(s, ret).ram, addr)
         == if addr == 0 then Sp(s) + 5
            else if Sp(s) <= addr < Sp(s) + 5 then FrameWord(s, ret, addr - Sp(s))
            else Read(s.ram, addr)
  {
    var s1 := Pushed(s, ret);
    PushedRead(s, ret, addr);
    PushedRead(s, ret, 1);
    var s2 := Pushed(s1, Read(s1.ram, 1));
    PushedRead(s1, Read(s1.ram, 1), addr);
    PushedRead(s1, Read(s1.ram, 1), 2);
    PushedRead(s, ret, 2);
    var s3 := Pushed(s2, Read(s2.ram, 2));
    PushedRead(s2, Read(s2.ram, 2), addr);
    PushedRead(s2, Read(s2.ram, 2), 3);
    PushedRead(s1, Read(s1.ram, 1), 3);
    PushedRead(s, ret, 3);
    var s4 := Pushed(s3, Read(s3.ram, 3));
    PushedRead(s3, Read(s3.ram, 3), addr);
    PushedRead(s3, Read(s3.ram, 3), 4);
    PushedRead(s2, Read(s2.ram, 2), 4);
    PushedRead(s1, Read(s1.ram, 1), 4);
    PushedRead(s, ret, 4);
    PushedRead(s4, Read(s4.ram, 4), addr);
  }

  /** The printed argument offset resolves to itself. */
  lemma ResolveOffset(env: map<string, Word>, k: nat)
    requires k < 0x8000
    ensures Resolve(IntToString(k), env) == Some(k)
  {
    ParseDecimalOfDecimal(k);
  }

  /** `ARG = SP - (n + 5)`, with SP read as it stands after the frame is pushed. */
  lemma RepositionArgEffect(env: map<string, Word>, t: State, numArgs: int)
    requires Pointers(env) && 0 <= numArgs && numArgs + 5 < 0x8000
    ensures Straight(RepositionArgCode(numArgs), env, t)
         == Some(t.(a := 2, d := Sub(Sp(t), numArgs + 5), ram := t.ram[2 := Sub(Sp(t), numArgs + 5)],
                    pc := t.pc + 7))
  {
    ResolvePointers(env);
    ResolveOffset(env, numArgs + 5);
    var k := numArgs + 5;
    var v := Sub(Sp(t), k);
    var p1 := [AInstr(IntToString(k)), CInstr(Some("D"), "A", None)];
    var p2 := [AInstr("SP"), CInstr(Some("A"), "M", None)];
    var p3 := [CInstr(Some("D"), "A-D", None), AInstr("ARG")];
    var p4 := [CInstr(Some("M"), "D", None)];
    assert RepositionArgCode(numArgs) == p1 + p2 + p3 + p4;
    var t2 := t.(a := k, d := k, pc := t.pc + 2);
    StraightPair(p1[0], p1[1], env, t, t.(a := k, pc := t.pc + 1), t2);
    var t4 := t2.(a := Sp(t), pc := t.pc + 4);
    StraightPair(p2[0], p2[1], env, t2, t2.(a := 0, pc := t.pc + 3), t4);
    Chain(p1, p2, env, t, t2, t4);
    var t6 := t4.(a := 2, d := v, pc := t.pc + 6);
    assert EvalComp("A-D", Sp(t), k, Read(t4.ram, Sp(t))) == Some(v) by {
      assert "A-D"[0] == 'A' && "A-D"[1] == '-' && "A-D"[2] == 'D';
    }
    StraightPair(p3[0], p3[1], env, t4, t4.(d := v, pc := t.pc + 5), t6);
    Chain(p1 + p2, p3, env, t, t4, t6);
    assert Straight(p4, env, t6) == Some(t6.(ram := t.ram[2 := v], pc := t.pc + 7));
    Chain(p1 + p2 + p3, p4, env, t, t6, t6.(ram := t.ram[2 := v], pc := t.pc + 7));
  }

  /** `LCL = SP`. */
  lemma RepositionLclEffect(env: map<string, Word>, t: State)
    requires Pointers(env)
    ensures Straight(RepositionLclCode, env, t)
         == Some(t.(a := 1, d := Sp(t), ram := t.ram[1 := Sp(t)], pc := t.pc + 4))
  {
    ResolvePointers(env);
    var p1 := [AInstr("SP"), CInstr(Some("D"), "M", None)];
    var p2 := [AInstr("LCL"), CInstr(Some("M"), "D", None)];
    assert RepositionLclCode == p1 + p2;
    var t2 := t.(a := 0, d := Sp(t), pc := t.pc + 2);
    StraightPair(p1[0], p1[1], env, t, t.(a := 0, pc := t.pc + 1), t2);
    var t4 := t2.(a := 1, ram := t.ram[1 := Sp(t)], pc := t.pc + 4);
    StraightPair(p2[0], p2[1], env, t2, t2.(a := 1, pc := t.pc + 3), t4);
    Chain(p1, p2, env, t, t2, t4);
  }

  /** The state the rest of `write_call`'s prefix leaves once the frame is pushed: ARG and
      LCL moved, and A holding the function's address. */
  function Repositioned(fr: State, numArgs: int, target: Word): State
    requires 0 <= numArgs && numArgs + 5 < 0x8000
  {
    var argv := Sub(Sp(fr), numArgs + 5);
    var u := fr.(a := 2, d := argv, ram := fr.ram[2 := argv], pc := fr.pc + 7);
    var v := u.(a := 1, d := Sp(u), ram := u.ram[1 := Sp(u)], pc := u.pc + 4);
    v.(a := target, pc := v.pc + 1)
  }

  /** The state `write_call`'s prefix leaves. */
  function CallPrefixState(s: State, ret: Word, numArgs: int, target: Word): State
    requires Sp(s) + 5 < 0xFFFF && 0 <= numArgs && numArgs + 5 < 0x8000
  {
    Repositioned(SavedFrame(s, ret), numArgs, target)
  }

  lemma RepositionEffect(env: map<string, Word>, fr: State, functionName: string, numArgs: int,
                         target: Word)
    requires Pointers(env) && 0 <= numArgs && numArgs + 5 < 0x8000
    requires Resolve(functionName, env) == Some(target)
    ensures Straight(RepositionArgCode(numArgs) + RepositionLclCode + [AInstr(functionName)], env, fr)
         == Some(Repositioned(fr, numArgs, target))
  {
    var x1 := RepositionArgCode(numArgs);
    var argv := Sub(Sp(fr), numArgs + 5);
    var u := fr.(a := 2, d := argv, ram := fr.ram[2 := argv], pc := fr.pc + 7);
    var v := u.(a := 1, d := Sp(u), ram := u.ram[1 := Sp(u)], pc := u.pc + 4);
    RepositionArgEffect(env, fr, numArgs);
    RepositionLclEffect(env, u);
    Chain(x1, RepositionLclCode, env, fr, u, v);
    assert Straight([AInstr(functionName)], env, v) == Some(v.(a := target, pc := v.pc + 1));
    Chain(x1 + RepositionLclCode, [AInstr(functionName)], env, fr, v, v.(a := target, pc := v.pc + 1));
  }

  lemma CallPrefixEffect(env: map<string, Word>, s: State, functionName: string, numArgs: int,
                         returnLabel: string, ret: Word, target: Word)
    requires Pointers(env) && 1 <= Sp(s) && Sp(s) + 5 < 0xFFFF && 0 <= numArgs && numArgs + 5 < 0x8000
    requires Resolve(returnLabel, env) == Some(ret) && Resolve(functionName, env) == Some(target)
    ensures Straight(CallPrefixCode(functionName, numArgs, returnLabel), env, s)
         == Some(CallPrefixState(s, ret, numArgs, target))
  {
    var tail := RepositionArgCode(numArgs) + RepositionLclCode + [AInstr(functionName)];
    assert CallPrefixCode(functionName, numArgs, returnLabel) == FrameCode(returnLabel) + tail;
    FrameEffect(env, s, returnLabel, ret);
    RepositionEffect(env, SavedFrame(s, ret), functionName, numArgs, target);
    Chain(FrameCode(returnLabel), tail, env, s, SavedFrame(s, ret), CallPrefixState(s, ret, numArgs, target));
  }

  /** The cells after the prefix: SP and LCL both point past the frame, ARG is `n` below the
      old SP, the frame sits above the old SP, and every other cell is kept. */
  lemma CallPrefixRead(s: State, ret: Word, numArgs: int, target: Word, addr: Word)
    requires 5 <= Sp(s) && Sp(s) + 5 < 0xFFFF && 0 <= numArgs && numArgs + 5 < 0x8000
    ensures Read(CallPrefixState(s, ret, numArgs, target).ram, addr)
         == if addr == 0 || addr == 1 then Sp(s) + 5
            else if addr == 2 then Sub(Sp(s), numArgs)
            else if Sp(s) <= addr < Sp(s) + 5 then FrameWord(s, ret, addr - Sp(s))
            else Read(s.ram, addr)
  {
    SavedFrameRead(s, ret, 0);
    SavedFrameRead(s, ret, addr);
  }

  /** Where the prefix leaves the program counter and A. */
  lemma CallPrefixRegisters(s: State, ret: Word, numArgs: int, target: Word)
    requires Sp(s) + 5 < 0xFFFF && 0 <= numArgs && numArgs + 5 < 0x8000
    ensures CallPrefixState(s, ret, numArgs, target).pc == s.pc + 47
    ensures CallPrefixState(s, ret, numArgs, target).a == target
  {
  }

  /** `0;JMP` transfers control to the address in A. */
  lemma JumpStep(prog: seq<Instr>, env: map<string, Word>, w: State)
    requires w.pc < |prog| && prog[w.pc] == CInstr(None, "0", Some("JMP"))
    ensures Run(prog, env, w, 1) == Some(w.(pc := w.a))
  {
    RunOne(prog, env, w);
  }

  /** The corrected call runs its prefix straight through, then jumps. */
  lemma CorrectedCallRuns(prog: seq<Instr>, env: map<string, Word>, s: State, functionName: string,
                          numArgs: int, returnLabel: string, ret: Word, target: Word)
    requires PlacedAt(prog, CorrectedCallCode(functionName, numArgs, returnLabel), s.pc)
    requires Pointers(env) && 5 <= Sp(s) && Sp(s) + 5 < 0xFFFF && 0 <= numArgs && numArgs + 5 < 0x8000
    requires Resolve(returnLabel, env) == Some(ret) && Resolve(functionName, env) == Some(target)
    ensures Run(prog, env, s, 48) == Some(CallPrefixState(s, ret, numArgs, target).(pc := target))
  {
    var prefix := CallPrefixCode(functionName, numArgs, returnLabel);
    var jmp := CInstr(None, "0", Some("JMP"));
    assert |prefix| == 47;
    PlacedSplit(prog, prefix, [jmp, LInstr(returnLabel)], s.pc);
    assert prog[s.pc + 47] == jmp by {
      assert prog[s.pc + 47..s.pc + 49] == [jmp, LInstr(returnLabel)];
    }
    var w := CallPrefixState(s, ret, numArgs, target);
    CallPrefixEffect(env, s, functionName, numArgs, returnLabel, ret, target);
    RunStraight(prog, prefix, env, s);
    CallPrefixRegisters(s, ret, numArgs, target);
    JumpStep(prog, env, w);
    RunAdditive(prog, env, s, 47, 1);
  }

  /** `write_call(f, n)` as intended (jump comp `"0"`): 48 steps save the return address and
      the caller's LCL, ARG, THIS and THAT above the old SP, set ARG to the first of the `n`
      arguments below them and LCL to the new SP, and transfer control to `f`; every other
      cell keeps its value. */
  lemma CorrectedCallEffect(prog: seq<Instr>, env: map<string, Word>, s: State, functionName: string,
                            numArgs: int, returnLabel: string, ret: Word, target: Word)
    requires PlacedAt(prog, CorrectedCallCode(functionName, numArgs, returnLabel), s.pc)
    requires Pointers(env) && 5 <= Sp(s) && Sp(s) + 5 < 0xFFFF && 0 <= numArgs && numArgs + 5 < 0x8000
    requires Resolve(returnLabel, env) == Some(ret) && Resolve(functionName, env) == Some(target)
    ensures var r := Run(prog, env, s, 48);
      r.Some? && r.value.pc == target
      && Sp(r.value) == Sp(s) + 5
      && Read(r.value.ram, 1) == Sp(s) + 5
      && Read(r.value.ram, 2) == Sub(Sp(s), numArgs)
      && (forall k | 0 <= k < 5 :: Read(r.value.ram, Sp(s) + k) == FrameWord(s, ret, k))
      && (forall addr: Word | addr > 2 && !(Sp(s) <= addr < Sp(s) + 5) ::
            Read(r.value.ram, addr) == Read(s.ram, addr))
  {
    CorrectedCallRuns(prog, env, s, functionName, numArgs, returnLabel, ret, target);
    var ram := CallPrefixState(s, ret, numArgs, target).ram;
    forall addr: Word
      ensures Read(ram, addr)
           == if addr == 0 || addr == 1 then Sp(s) + 5
              else if addr == 2 then Sub(Sp(s), numArgs)
              else if Sp(s) <= addr < Sp(s) + 5 then FrameWord(s, ret, addr - Sp(s))
              else Read(s.ram, addr)
    {
      CallPrefixRead(s, ret, numArgs, target, addr);
    }
  }
}
