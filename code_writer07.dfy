/**
 * The project-7 code generator (07/CodeWriter.py): the output name derived from the input
 * name, push constant, and the arithmetic commands add, sub, and, or and neg. eq, gt, lt and
 * not are accepted and emit nothing. Every line is printed as it is produced; the model keeps
 * the printed lines in `out`.
 *
 * The fragments are the same instruction sequences the project-8 writer emits, so this module
 * reuses CodeWriter08's `...Code` functions and proves the two writers agree on the commands
 * they share.
 */
module CodeWriter07 {
  import opened Wrappers
  import opened Text
  import opened HackAsm
  import opened VmTokens
  import CodeWriter08

  // ---------------------------------------------------------------------------------------
  // Output name

  /** `s.rfind(c)`: the last index holding `c`, or -1. */
  function LastIndexOf(s: string, c: char): (r: int)
    ensures -1 <= r < |s|
    ensures r >= 0 ==> s[r] == c
    ensures forall k | r < k < |s| :: s[k] != c
    decreases |s|
  {
    if s == [] then -1
    else if s[|s| - 1] == c then |s| - 1
    else LastIndexOf(s[..|s| - 1], c)
  }

  /** `os.path.splitext` on a POSIX path: the extension starts at the last dot of the final
      path component, unless everything before that dot in the component is dots. */
  function SplitExt(p: string): (r: (string, string))
    ensures r.0 + r.1 == p
  {
    var sep := LastIndexOf(p, '/');
    var dot := LastIndexOf(p, '.');
    if dot > sep && exists k | sep + 1 <= k < dot :: p[k] != '.' then (p[..dot], p[dot..])
    else (p, "")
  }

  /** `__init__`: a `.vm` extension in any case becomes `.asm`; otherwise `.asm` is appended to
      the whole input name. */
  function OutputName(infile: string): string {
    var (base, ext) := SplitExt(infile);
    (if Lower(ext) != ".vm" then infile else base) + ".asm"
  }

  /** `x.vm`, `x.VM`, `x.Vm`, ... become `x.asm`, whenever the last path component of `x`
      holds some character other than a dot (so `a..vm` becomes `a..asm`, while in `..vm` the
      `.vm` is not an extension). */
  lemma OutputNameReplacesVm(base: string, ext: string)
    requires Lower(ext) == ".vm"
    requires exists k | LastIndexOf(base, '/') < k < |base| :: base[k] != '.'
    ensures OutputName(base + ext) == base + ".asm"
  {
    var p := base + ext;
    assert ext[0] == '.' && ext[1] != '.' && ext[2] != '.' by {
      assert Lower(ext)[0] == LowerChar(ext[0]) && Lower(ext)[1] == LowerChar(ext[1]) && Lower(ext)[2] == LowerChar(ext[2]);
    }
    assert ext[0] != '/' && ext[1] != '/' && ext[2] != '/';
    var dot := LastIndexOf(p, '.');
    assert dot == |base| by {
      assert p[|base|] == '.' && p[|base| + 1] == ext[1] && p[|base| + 2] == ext[2];
    }
    var k :| LastIndexOf(base, '/') < k < |base| && base[k] != '.';
    var sep := LastIndexOf(p, '/');
    assert sep < k;
    assert p[k] == base[k];
    assert p[..dot] == base && p[dot..] == ext;
  }

  /** A name that does not end in `.vm` (in any case) just gets `.asm` appended. */
  lemma OutputNameAppends(infile: string)
    requires !(|infile| >= 3 && Lower(infile[|infile| - 3..]) == ".vm")
    ensures OutputName(infile) == infile + ".asm"
  {
  }

  /** A file named only `.vm` has no extension: `dir/.vm` becomes `dir/.vm.asm`. */
  lemma HiddenVmFile()
    ensures OutputName("dir/.vm") == "dir/.vm.asm"
  {
    var p := "dir/.vm";
    assert LastIndexOf(p, '/') == 3 by {
      assert p[3] == '/' && p[4] != '/' && p[5] != '/' && p[6] != '/';
    }
    assert LastIndexOf(p, '.') == 4 by {
      assert p[4] == '.' && p[5] != '.' && p[6] != '.';
    }
    assert SplitExt(p) == (p, "");
    assert Lower("") == "";
  }

  // ---------------------------------------------------------------------------------------
  // What each command emits

  /** `_push(segment, index)`: only constant; anything else raises. */
  function PushCode(segment: string, index: string): Result<seq<Instr>, WriteError> {
    if segment == "constant" then Ok(CodeWriter08.PushValueCode(index))
    else Err(UnknownSegment(segment))
  }

  /** `write_arithmetic(command)`. */
  function ArithmeticCode(command: string): Result<seq<Instr>, WriteError> {
    if command == "add" then Ok(CodeWriter08.BinaryCode("D+A"))
    else if command == "sub" then Ok(CodeWriter08.BinaryCode("A-D"))
    else if command == "and" then Ok(CodeWriter08.BinaryCode("D&A"))
    else if command == "or" then Ok(CodeWriter08.BinaryCode("D|A"))
    else if command == "neg" then Ok(CodeWriter08.UnaryCode("-D"))
    else if command == "eq" || command == "gt" || command == "lt" || command == "not" then Ok([])
    else Err(UnknownCommand(command))
  }

  /** push constant v: `@v`, `D=A`, `@SP`, `A=M`, `M=D`, `@SP`, `M=M+1`. */
  lemma PushConstantLines(value: string)
    ensures PushCode("constant", value).Ok?
    ensures Lines(PushCode("constant", value).value) == ["@" + value, "D=A", "@SP", "A=M", "M=D", "@SP", "M=M+1"]
  {
    CodeWriter08.PushConstantLines(value);
  }

  /** Every segment but constant raises. */
  lemma PushAcceptsOnlyConstant(segment: string, index: string)
    ensures PushCode(segment, index).Ok? <==> segment == "constant"
    ensures segment != "constant" ==> PushCode(segment, index) == Err(UnknownSegment(segment))
  {
  }

  /** The nine operators are accepted; eq, gt, lt and not emit nothing; anything else raises. */
  lemma ArithmeticCodeAccepts(command: string)
    ensures ArithmeticCode(command).Ok? <==> command in {"add", "sub", "and", "or", "neg", "not", "eq", "gt", "lt"}
    ensures command in {"eq", "gt", "lt", "not"} ==> ArithmeticCode(command) == Ok([])
    ensures ArithmeticCode(command).Err? ==> ArithmeticCode(command).error == UnknownCommand(command)
  {
  }

  /** Where both writers emit something, they emit the same code: push constant, add, sub, and,
      or and neg. */
  lemma AgreesWithProject8(command: string, segment: string, index: string, n: nat)
    ensures command in {"add", "sub", "and", "or", "neg"}
            ==> ArithmeticCode(command) == CodeWriter08.ArithmeticCode(command, n)
    ensures PushCode("constant", index) == CodeWriter08.PushCode("constant", index)
  {
  }

  // ---------------------------------------------------------------------------------------
  // The writer

  class CodeWriter {
    const outfile: string
    /** The lines printed so far. */
    var out: seq<string>
    /** The same lines as instructions. */
    ghost var code: seq<Instr>

    ghost predicate Valid()
      reads this
    {
      out == Lines(code)
    }

    constructor (infile: string)
      ensures Valid()
      ensures outfile == OutputName(infile) && out == [] && code == []
    {
      var (base, ext) := SplitExt(infile);
      if Lower(ext) != ".vm" {
        base := infile;
      }
      outfile := base + ".asm";
      out := [];
      code := [];
    }

    method ACommand(value: string)
      requires Valid()
      modifies this`out, this`code
      ensures Valid()
      ensures code == old(code) + [AInstr(value)]
      ensures out == old(out) + [ALine(value)]
    {
      out := out + ["@" + value];
      LinesConcat(code, [AInstr(value)]);
      code := code + [AInstr(value)];
    }

    /** `_c_command`: raises, printing nothing, when comp is None. */
    method CCommand(dest: Option<string>, comp: Field, jump: Option<string>) returns (o: Outcome<WriteError>)
      requires Valid()
      modifies this`out, this`code
      ensures Valid()
      ensures CLine(dest, comp, jump).Ok? ==>
                && o == Pass
                && code == old(code) + [CInstr(dest, comp.s, jump)]
                && out == old(out) + [CLine(dest, comp, jump).value]
      ensures CLine(dest, comp, jump).Err? ==>
                o == Fail(BadLine(CLine(dest, comp, jump).error)) && code == old(code) && out == old(out)
    {
      if comp.NoneValue? {
        return Fail(BadLine(InvalidComp));
      }
      var line := "";
      if dest.Some? {
        line := dest.value + "=";
      }
      if !comp.Str? {
        return Fail(BadLine(CompNotString));
      }
      line := line + comp.s;
      if jump.Some? {
        line := line + (";" + jump.value);
      }
      assert line == Render(CInstr(dest, comp.s, jump));
      out := out + [line];
      LinesConcat(code, [CInstr(dest, comp.s, jump)]);
      code := code + [CInstr(dest, comp.s, jump)];
      o := Pass;
    }

    /** A C-command with a string comp, which never raises. */
    method C(dest: Option<string>, comp: string)
      requires Valid()
      modifies this`out, this`code
      ensures Valid()
      ensures code == old(code) + [CInstr(dest, comp, None)]
    {
      var o := CCommand(dest, Str(comp), None);
    }

    method LoadSp()
      requires Valid()
      modifies this`out, this`code
      ensures Valid()
      ensures code == old(code) + CodeWriter08.LoadSpCode
    {
      ACommand("SP");
      C(Some("A"), "M");
    }

    method IncSp()
      requires Valid()
      modifies this`out, this`code
      ensures Valid()
      ensures code == old(code) + CodeWriter08.IncSpCode
    {
      ACommand("SP");
      C(Some("M"), "M+1");
    }

    method DecSp()
      requires Valid()
      modifies this`out, this`code
      ensures Valid()
      ensures code == old(code) + CodeWriter08.DecSpCode
    {
      ACommand("SP");
      C(Some("M"), "M-1");
    }

    /** `_stack_to_dest(dest)`: pop into the dest register(s). */
    method StackToDest(dest: string)
      requires Valid()
      modifies this`out, this`code
      ensures Valid()
      ensures code == old(code) + CodeWriter08.PopToDestCode(dest)
    {
      DecSp();
      LoadSp();
      C(Some(dest), "M");
    }

    /** `_comp_to_stack(comp)`: push the value of comp. */
    method CompToStack(comp: string)
      requires Valid()
      modifies this`out, this`code
      ensures Valid()
      ensures code == old(code) + CodeWriter08.PushCompCode(comp)
    {
      LoadSp();
      C(Some("M"), comp);
      IncSp();
    }

    method Unary(comp: string)
      requires Valid()
      modifies this`out, this`code
      ensures Valid()
      ensures code == old(code) + CodeWriter08.UnaryCode(comp)
    {
      StackToDest("A");
      C(Some("D"), comp);
      CompToStack("D");
    }

    method Binary(comp: string)
      requires Valid()
      modifies this`out, this`code
      ensures Valid()
      ensures code == old(code) + CodeWriter08.BinaryCode(comp)
    {
      StackToDest("D");
      Unary(comp);
    }

    /** `_push_constant(value)`, written out line by line in the source. */
    method PushConstant(value: string)
      requires Valid()
      modifies this`out, this`code
      ensures Valid()
      ensures code == old(code) + CodeWriter08.PushValueCode(value)
    {
      ACommand(value);
      C(Some("D"), "A");
      ACommand("SP");
      C(Some("A"), "M");
      C(Some("M"), "D");
      IncSp();
    }

    method Push(segment: string, index: string) returns (o: Outcome<WriteError>)
      requires Valid()
      modifies this`out, this`code
      ensures Valid()
      ensures PushCode(segment, index).Ok? ==> o == Pass && code == old(code) + PushCode(segment, index).value
      ensures PushCode(segment, index).Err? ==> o == Fail(PushCode(segment, index).error) && code == old(code)
    {
      if segment == "constant" {
        PushConstant(index);
        o := Pass;
      } else {
        o := Fail(UnknownSegment(segment));
      }
    }

    /** `_pop` is a stub: it emits nothing. */
    method Pop(segment: string, index: string)
      ensures out == old(out)
    {
    }

    method WritePushPop(command: VmToken, segment: string, index: string) returns (o: Outcome<WriteError>)
      requires Valid()
      modifies this`out, this`code
      ensures Valid()
      ensures command == PUSH && PushCode(segment, index).Ok? ==>
                && o == Pass
                && code == old(code) + PushCode(segment, index).value
                && out == old(out) + Lines(PushCode(segment, index).value)
      ensures command == PUSH && PushCode(segment, index).Err? ==>
                o == Fail(PushCode(segment, index).error) && code == old(code) && out == old(out)
      ensures command == POP ==> o == Pass && code == old(code) && out == old(out)
      ensures command != PUSH && command != POP ==> o == Fail(InvalidCommand) && code == old(code) && out == old(out)
    {
      if command == PUSH {
        o := Push(segment, index);
        if o == Pass {
          LinesConcat(old(code), PushCode(segment, index).value);
        }
      } else if command == POP {
        Pop(segment, index);
        o := Pass;
      } else {
        o := Fail(InvalidCommand);
      }
    }

    method WriteArithmetic(command: string) returns (o: Outcome<WriteError>)
      requires Valid()
      modifies this`out, this`code
      ensures Valid()
      ensures ArithmeticCode(command).Ok? ==>
                && o == Pass
                && code == old(code) + ArithmeticCode(command).value
                && out == old(out) + Lines(ArithmeticCode(command).value)
      ensures ArithmeticCode(command).Err? ==>
                o == Fail(ArithmeticCode(command).error) && code == old(code) && out == old(out)
    {
      o := Pass;
      if command == "add" {
        Binary("D+A");
      } else if command == "sub" {
        Binary("A-D");
      } else if command == "and" {
        Binary("D&A");
      } else if command == "or" {
        Binary("D|A");
      } else if command == "neg" {
        Unary("-D");
      } else if command == "eq" {
      } else if command == "gt" {
      } else if command == "lt" {
      } else if command == "not" {
      } else {
        o := Fail(UnknownCommand(command));
      }
      if o == Pass {
        LinesConcat(old(code), ArithmeticCode(command).value);
      }
    }
  }
}
