/**
 * Hack assembly lines as both code writers emit them: an A-command `@value`, a C-command
 * `dest=comp;jump` and a label line `(name)`. `Instr` is the structured form; `Render` is
 * the text the writers produce and `ParseLine` reads it back, which is how the Hack machine
 * model executes emitted text.
 */
module HackAsm {
  import opened Wrappers

  /** A value passed as a C-command field: a string, Python's `None`, or an integer. */
  datatype Field = Str(s: string) | NoneValue | IntValue(i: int)

  /** Why `_c_command` raises: a `None` comp, or a comp that is not a string. */
  datatype LineError = InvalidComp | CompNotString

  /** The exceptions the code writers raise, named after their messages. */
  datatype WriteError =
    | BadLine(cause: LineError)        // from `_c_command`
    | SegmentIndexOutOfRange           // 'Segment index out of range.'
    | InvalidSegmentIndex              // 'Invalid segment index value.'
    | UndefinedBasename                // reading the never-assigned `_basename`
    | UnknownSegment(segment: string)  // 'Unknown segment type "..."'
    | InvalidCommand                   // 'Invalid command'
    | UnknownCommand(command: string)  // 'Unknown command "..."'

  /** `_a_command`: the A-command line for a value. */
  function ALine(value: string): string {
    "@" + value
  }

  /** `_l_command`: the label-definition line. */
  function LLine(name: string): string {
    "(" + name + ")"
  }

  /**
   * `_c_command`: `dest=` only when dest is given, then comp, then `;jump` only when jump is
   * given. A `None` comp raises before anything is built; a non-string comp raises when it is
   * appended to the line (`'' + 0` is a type error).
   */
  function CLine(dest: Option<string>, comp: Field, jump: Option<string>): (r: Result<string, LineError>)
    ensures r.Err? <==> !comp.Str?
    ensures comp.NoneValue? ==> r == Err(InvalidComp)
    ensures comp.IntValue? ==> r == Err(CompNotString)
  {
    match comp
    case NoneValue => Err(InvalidComp)
    case IntValue(_) => Err(CompNotString)
    case Str(c) =>
      var head := if dest.Some? then dest.value + "=" else "";
      var tail := if jump.Some? then ";" + jump.value else "";
      Ok(head + c + tail)
  }

  /** One line of Hack assembly in structured form. */
  datatype Instr =
    | AInstr(value: string)
    | CInstr(dest: Option<string>, comp: string, jump: Option<string>)
    | LInstr(name: string)

  function Render(i: Instr): string {
    match i
    case AInstr(v) => ALine(v)
    case CInstr(d, c, j) => CLine(d, Str(c), j).value
    case LInstr(l) => LLine(l)
  }

  /** The emitted text of a code fragment, one line per instruction. */
  function Lines(code: seq<Instr>): (r: seq<string>)
    ensures |r| == |code|
  {
    seq(|code|, k requires 0 <= k < |code| => Render(code[k]))
  }

  lemma {:induction false} LinesConcat(a: seq<Instr>, b: seq<Instr>)
    ensures Lines(a + b) == Lines(a) + Lines(b)
  {
    assert |Lines(a + b)| == |Lines(a) + Lines(b)|;
    forall k | 0 <= k < |a + b|
      ensures Lines(a + b)[k] == (Lines(a) + Lines(b))[k]
    {
      if k < |a| { assert (a + b)[k] == a[k]; } else { assert (a + b)[k] == b[k - |a|]; }
    }
  }

  /** Joining fragments does not depend on grouping. */
  lemma ConcatAssoc(a: seq<Instr>, b: seq<Instr>, c: seq<Instr>)
    ensures a + (b + c) == (a + b) + c
  {
  }

  /** A character that may appear in a C-command field without being read as a separator. */
  predicate FieldChar(c: char) {
    c != '=' && c != ';' && c != '@' && c != '('
  }

  predicate FieldText(s: string) {
    forall k | 0 <= k < |s| :: FieldChar(s[k])
  }

  /** Instructions whose rendered line reads back as the same instruction. */
  predicate WellFormed(i: Instr) {
    match i
    case AInstr(_) => true
    case LInstr(_) => true
    case CInstr(d, c, j) =>
      (d.Some? ==> FieldText(d.value)) && FieldText(c) && (j.Some? ==> FieldText(j.value))
  }

  /** The first position of `c` in `s`, if any. */
  function Find(s: string, c: char): (r: Option<nat>)
    ensures r.Some? ==> r.value < |s| && s[r.value] == c && forall k | 0 <= k < r.value :: s[k] != c
    ensures r.None? ==> forall k | 0 <= k < |s| :: s[k] != c
  {
    if s == [] then None
    else if s[0] == c then Some(0)
    else match Find(s[1..], c) case None => None case Some(k) => Some(k + 1)
  }

  lemma FindAt(s: string, c: char, k: nat)
    requires k < |s| && s[k] == c
    requires forall j | 0 <= j < k :: s[j] != c
    ensures Find(s, c) == Some(k)
  {
  }

  lemma FindNone(s: string, c: char)
    requires forall j | 0 <= j < |s| :: s[j] != c
    ensures Find(s, c) == None
  {
  }

  /** Reads the `comp;jump` part of a C-command. */
  function ParseCompJump(dest: Option<string>, rest: string): Instr {
    match Find(rest, ';')
    case Some(j) => CInstr(dest, rest[..j], Some(rest[j + 1..]))
    case None => CInstr(dest, rest, None)
  }

  /** How a Hack machine reads one line of text back into an instruction. */
  function ParseLine(line: string): Instr {
    if |line| > 0 && line[0] == '@' then AInstr(line[1..])
    else if |line| >= 2 && line[0] == '(' && line[|line| - 1] == ')' then LInstr(line[1..|line| - 1])
    else match Find(line, '=')
      case Some(i) => ParseCompJump(Some(line[..i]), line[i + 1..])
      case None => ParseCompJump(None, line)
  }

  function ParseAll(lines: seq<string>): (r: seq<Instr>)
    ensures |r| == |lines|
    ensures forall k | 0 <= k < |lines| :: r[k] == ParseLine(lines[k])
  {
    if lines == [] then [] else [ParseLine(lines[0])] + ParseAll(lines[1..])
  }

  lemma CompJumpRoundTrip(dest: Option<string>, c: string, j: Option<string>)
    requires FieldText(c) && (j.Some? ==> FieldText(j.value))
    ensures ParseCompJump(dest, c + (if j.Some? then ";" + j.value else "")) == CInstr(dest, c, j)
  {
    var rest := c + (if j.Some? then ";" + j.value else "");
    if j.Some? {
      assert rest[|c|] == ';';
      FindAt(rest, ';', |c|);
      assert rest[..|c|] == c;
      assert rest[|c| + 1..] == j.value;
    } else {
      assert rest == c;
      FindNone(rest, ';');
    }
  }

  lemma CRoundTripWithDest(ds: string, c: string, j: Option<string>)
    requires FieldText(ds) && FieldText(c) && (j.Some? ==> FieldText(j.value))
    ensures ParseLine(Render(CInstr(Some(ds), c, j))) == CInstr(Some(ds), c, j)
  {
    var line := Render(CInstr(Some(ds), c, j));
    var tail := if j.Some? then ";" + j.value else "";
    assert line == ds + "=" + (c + tail);
    assert line[|ds|] == '=';
    FindAt(line, '=', |ds|);
    assert line[..|ds|] == ds;
    assert line[|ds| + 1..] == c + tail;
    CompJumpRoundTrip(Some(ds), c, j);
    assert line[0] != '@' && line[0] != '(' by {
      if |ds| > 0 { assert line[0] == ds[0]; } else { assert line[0] == '='; }
    }
  }

  lemma CRoundTripNoDest(c: string, j: Option<string>)
    requires FieldText(c) && (j.Some? ==> FieldText(j.value))
    ensures ParseLine(Render(CInstr(None, c, j))) == CInstr(None, c, j)
  {
    var line := Render(CInstr(None, c, j));
    var tail := if j.Some? then ";" + j.value else "";
    assert line == c + tail;
    forall k | 0 <= k < |line| ensures line[k] != '=' {
      if k < |c| { assert line[k] == c[k]; } else { assert line[k] == tail[k - |c|]; }
    }
    FindNone(line, '=');
    CompJumpRoundTrip(None, c, j);
    if |line| > 0 {
      assert line[0] != '@' && line[0] != '(' by {
        if |c| > 0 { assert line[0] == c[0]; } else { assert line[0] == ';'; }
      }
    }
  }

  /** Every well-formed instruction survives being written out and read back. */
  lemma RenderRoundTrip(i: Instr)
    requires WellFormed(i)
    ensures ParseLine(Render(i)) == i
  {
    match i
    case AInstr(v) =>
      assert Render(i)[1..] == v;
    case LInstr(l) =>
      assert Render(i)[1..|Render(i)| - 1] == l;
    case CInstr(d, c, j) =>
      if d.Some? { CRoundTripWithDest(d.value, c, j); } else { CRoundTripNoDest(c, j); }
  }

  /** A fragment of well-formed instructions is read back exactly from its emitted text. */
  lemma RenderAllRoundTrip(code: seq<Instr>)
    requires forall k | 0 <= k < |code| :: WellFormed(code[k])
    ensures ParseAll(Lines(code)) == code
  {
    forall k | 0 <= k < |code| ensures ParseAll(Lines(code))[k] == code[k] {
      RenderRoundTrip(code[k]);
    }
  }
}
