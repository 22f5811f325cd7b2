/**
 * A small model of the Hack computer of chapter 4 of The Elements of Computing Systems,
 * used as the reference semantics of the code the VM translator emits: a 16-bit A and D
 * register, a RAM map (absent cells read as 0) and a program counter.
 *
 * The program is the instruction sequence itself, labels included: a label is a no-op that
 * occupies its index, and a symbol resolves through an environment to a RAM address or to
 * the index of its label. Jumping to a label's index and stepping over it reaches the same
 * instruction the assembled program would jump to.
 */
module HackMachine {
  import opened Wrappers
  import opened Text
  import opened HackAsm

  type Word = x: int | 0 <= x < 0x10000

  const TRUE: Word := 0xFFFF
  const FALSE: Word := 0

  function Add(x: Word, y: Word): Word { (x + y) % 0x10000 }
  function Sub(x: Word, y: Word): Word { (x - y) % 0x10000 }
  function Neg(x: Word): Word { (0x10000 - x) % 0x10000 }
  function Not(x: Word): Word { 0xFFFF - x }
  function And(x: Word, y: Word): Word { ((x as bv16) & (y as bv16)) as int }
  function Or(x: Word, y: Word): Word { ((x as bv16) | (y as bv16)) as int }

  /** The two's-complement reading of a word. */
  function Signed(x: Word): int { if x < 0x8000 then x else x - 0x10000 }

  datatype State = State(a: Word, d: Word, ram: map<Word, Word>, pc: nat)

  function Read(ram: map<Word, Word>, addr: Word): Word {
    if addr in ram then ram[addr] else 0
  }

  /** The ALU: the value of a comp mnemonic from chapter 4's table (28 mnemonics), or None for
      anything else. The mnemonic is decoded by length and then character by character. */
  function EvalComp(comp: string, a: Word, d: Word, m: Word): Option<Word> {
    if |comp| == 1 then EvalOperand(comp[0], a, d, m)
    else if |comp| == 2 then EvalUnaryComp(comp[0], comp[1], a, d, m)
    else if |comp| == 3 then EvalBinaryComp(comp[0], comp[1], comp[2], a, d, m)
    else None
  }

  /** `0`, `1`, `D`, `A`, `M`. */
  function EvalOperand(c: char, a: Word, d: Word, m: Word): Option<Word> {
    match c
    case '0' => Some(0)
    case '1' => Some(1)
    case 'D' => Some(d)
    case 'A' => Some(a)
    case 'M' => Some(m)
    case _ => None
  }

  /** A register named by `D`, `A` or `M`. */
  function Register(c: char, a: Word, d: Word, m: Word): Option<Word> {
    match c
    case 'D' => Some(d)
    case 'A' => Some(a)
    case 'M' => Some(m)
    case _ => None
  }

  /** `-1`, `!D`, `!A`, `!M`, `-D`, `-A`, `-M`. */
  function EvalUnaryComp(op: char, c: char, a: Word, d: Word, m: Word): Option<Word> {
    if op == '-' && c == '1' then Some(TRUE)
    else
      match Register(c, a, d, m)
      case None => None
      case Some(x) =>
        if op == '!' then Some(Not(x)) else if op == '-' then Some(Neg(x)) else None
  }

  /** `D+1`, `A+1`, `M+1`, `D-1`, `A-1`, `M-1`, `D+A`, `D+M`, `D-A`, `D-M`, `A-D`, `M-D`,
      `D&A`, `D&M`, `D|A`, `D|M`. */
  function EvalBinaryComp(x: char, op: char, y: char, a: Word, d: Word, m: Word): Option<Word> {
    match Register(x, a, d, m)
    case None => None
    case Some(u) =>
      if y == '1' then
        (if op == '+' then Some(Add(u, 1)) else if op == '-' then Some(Sub(u, 1)) else None)
      else if x == 'D' && (y == 'A' || y == 'M') then
        var v := if y == 'A' then a else m;
        if op == '+' then Some(Add(d, v))
        else if op == '-' then Some(Sub(d, v))
        else if op == '&' then Some(And(d, v))
        else if op == '|' then Some(Or(d, v))
        else None
      else if x != 'D' && op == '-' && y == 'D' then Some(Sub(u, d))
      else None
  }

  /** Which registers a dest mnemonic names, as (A, D, M): `M`, `D`, `MD`, `A`, `AM`, `AD`,
      `AMD`; None for anything else. */
  function DestRegisters(dm: string): Option<(bool, bool, bool)> {
    if |dm| == 1 then
      match dm[0]
      case 'M' => Some((false, false, true))
      case 'D' => Some((false, true, false))
      case 'A' => Some((true, false, false))
      case _ => None
    else if |dm| == 2 then
      match (dm[0], dm[1])
      case ('M', 'D') => Some((false, true, true))
      case ('A', 'M') => Some((true, false, true))
      case ('A', 'D') => Some((true, true, false))
      case _ => None
    else if |dm| == 3 && dm[0] == 'A' && dm[1] == 'M' && dm[2] == 'D' then Some((true, true, true))
    else None
  }

  /** Stores `v` into the registers a dest mnemonic names; M is the cell at the A held before. */
  function StoreDest(dest: Option<string>, v: Word, s: State): Option<State> {
    if dest.None? then Some(s)
    else
      match DestRegisters(dest.value)
      case None => None
      case Some((toA, toD, toM)) =>
        var t := if toM then s.(ram := s.ram[s.a := v]) else s;
        var u := if toD then t.(d := v) else t;
        Some(if toA then u.(a := v) else u)
  }

  /** Whether a jump mnemonic fires on the computed value, or None for an unknown mnemonic. */
  function Jumps(jump: Option<string>, v: Word): Option<bool> {
    if jump.None? then Some(false)
    else
      var j := jump.value;
      var x := Signed(v);
      if |j| != 3 || j[0] != 'J' then None
      else
        match (j[1], j[2])
        case ('G', 'T') => Some(x > 0)
        case ('E', 'Q') => Some(x == 0)
        case ('G', 'E') => Some(x >= 0)
        case ('L', 'T') => Some(x < 0)
        case ('N', 'E') => Some(x != 0)
        case ('L', 'E') => Some(x <= 0)
        case ('M', 'P') => Some(true)
        case _ => None
  }

  /** The value an A-instruction loads: a numeral keeps its low 15 bits, a symbol is looked up. */
  function Resolve(value: string, env: map<string, Word>): Option<Word> {
    if IsNumeral(value) then Some(ParseDecimal(value) % 0x8000)
    else if value in env then Some(env[value])
    else None
  }

  /** One instruction. A C-instruction jumps to the A held before it. */
  function Exec(i: Instr, env: map<string, Word>, s: State): Option<State> {
    match i
    case AInstr(v) =>
      (match Resolve(v, env)
       case None => None
       case Some(w) => Some(s.(a := w, pc := s.pc + 1)))
    case LInstr(_) => Some(s.(pc := s.pc + 1))
    case CInstr(dest, comp, jump) =>
      match EvalComp(comp, s.a, s.d, Read(s.ram, s.a))
      case None => None
      case Some(v) =>
        match StoreDest(dest, v, s)
        case None => None
        case Some(t) =>
          match Jumps(jump, v)
          case None => None
          case Some(taken) => Some(t.(pc := if taken then s.a else s.pc + 1))
  }

  /** `n` steps of the program from `s`; None if the machine leaves the program or faults. */
  function Run(prog: seq<Instr>, env: map<string, Word>, s: State, n: nat): Option<State>
    decreases n
  {
    if n == 0 then Some(s)
    else if s.pc >= |prog| then None
    else
      match Exec(prog[s.pc], env, s)
      case None => None
      case Some(t) => Run(prog, env, t, n - 1)
  }

  /** Running `m` then `n` steps is running `m + n` steps. */
  lemma {:induction false} RunAdditive(prog: seq<Instr>, env: map<string, Word>, s: State, m: nat, n: nat)
    requires Run(prog, env, s, m).Some?
    ensures Run(prog, env, s, m + n) == Run(prog, env, Run(prog, env, s, m).value, n)
    decreases m
  {
    if m > 0 {
      var t := Exec(prog[s.pc], env, s).value;
      RunAdditive(prog, env, t, m - 1, n);
    }
  }

  /** One step is one instruction. */
  lemma RunOne(prog: seq<Instr>, env: map<string, Word>, s: State)
    requires s.pc < |prog|
    ensures Run(prog, env, s, 1) == Exec(prog[s.pc], env, s)
  {
  }

  /** `code` sits in the program at index `p`. */
  predicate PlacedAt(prog: seq<Instr>, code: seq<Instr>, p: nat) {
    p + |code| <= |prog| && prog[p..p + |code|] == code
  }

  /** A fragment placed in a program is also placed wherever its own parts are. */
  lemma PlacedSplit(prog: seq<Instr>, x: seq<Instr>, y: seq<Instr>, p: nat)
    requires PlacedAt(prog, x + y, p)
    ensures PlacedAt(prog, x, p) && PlacedAt(prog, y, p + |x|)
  {
    assert prog[p..p + |x|] == (x + y)[..|x|];
    assert prog[p + |x|..p + |x| + |y|] == (x + y)[|x|..];
  }

  /** Straight-line execution of a fragment: every instruction in turn, ignoring the program
      counter except to advance it; None if an instruction faults or jumps. */
  function Straight(code: seq<Instr>, env: map<string, Word>, s: State): Option<State>
    decreases |code|
  {
    if code == [] then Some(s)
    else
      match Exec(code[0], env, s)
      case None => None
      case Some(t) => if t.pc == s.pc + 1 then Straight(code[1..], env, t) else None
  }

  /** A fragment placed at the program counter that runs straight through runs in the program
      for exactly as many steps, ending just past it. */
  lemma {:induction false} RunStraight(prog: seq<Instr>, code: seq<Instr>, env: map<string, Word>, s: State)
    requires PlacedAt(prog, code, s.pc)
    requires Straight(code, env, s).Some?
    ensures Run(prog, env, s, |code|) == Straight(code, env, s)
    ensures Straight(code, env, s).value.pc == s.pc + |code|
    decreases |code|
  {
    if code != [] {
      assert prog[s.pc] == code[0];
      var t := Exec(code[0], env, s).value;
      assert t.pc == s.pc + 1 && Straight(code, env, s) == Straight(code[1..], env, t);
      PlacedSplit(prog, [code[0]], code[1..], s.pc);
      assert [code[0]] + code[1..] == code;
      RunStraight(prog, code[1..], env, t);
      assert Run(prog, env, s, |code|) == Run(prog, env, t, |code| - 1);
    }
  }

  /** Two instructions that each advance the program counter run straight through. */
  lemma StraightPair(i: Instr, j: Instr, env: map<string, Word>, s: State, t: State, u: State)
    requires Exec(i, env, s) == Some(t) && t.pc == s.pc + 1
    requires Exec(j, env, t) == Some(u) && u.pc == t.pc + 1
    ensures Straight([i, j], env, s) == Some(u)
  {
    assert [i, j][0] == i && [i, j][1..] == [j];
    assert Straight([i, j], env, s) == Straight([j], env, t);
    assert [j][0] == j && [j][1..] == [];
    assert Straight([j], env, t) == Straight([], env, u);
  }

  /** Straight-line execution composes over concatenation. */
  lemma {:induction false} StraightConcat(x: seq<Instr>, y: seq<Instr>, env: map<string, Word>, s: State)
    requires Straight(x, env, s).Some?
    ensures Straight(x + y, env, s) == Straight(y, env, Straight(x, env, s).value)
    decreases |x|
  {
    if x != [] {
      assert (x + y)[0] == x[0];
      assert (x + y)[1..] == x[1..] + y;
      var t := Exec(x[0], env, s).value;
      assert t.pc == s.pc + 1 && Straight(x, env, s) == Straight(x[1..], env, t);
      StraightConcat(x[1..], y, env, t);
      assert Straight(x + y, env, s) == Straight(x[1..] + y, env, t);
    } else {
      assert x + y == y;
    }
  }
}
