/**
 * The Hack assembly parser (06/Parser.py). It reads the symbols the Hack lexer produced and
 * records, per `advance`, the kind of the next command and, for an A-command, its symbol.
 * The lexer has no `get_next_symbol` or `has_more_symbols`; they are modelled on the
 * lexer's `symbols` deque as a rotating queue, the way the VM lexer reads its tokens.
 */
module HackParser {
  import opened Wrappers
  import opened Rotation
  import opened HackLexer

  datatype CommandType = A_COMMAND | C_COMMAND | L_COMMAND

  /** Unpacking the `None` a drained deque gives raises a TypeError; the parser's own
      checks raise `Exception("Error!")`. */
  datatype ParseError = NoSymbol | BadCommand

  /** The parser's fields `_command_type` and `_symbol`. */
  datatype State = State(commandType: Option<CommandType>, symbol: Option<string>)

  /** The outcome, the fields and the queue after one step. */
  datatype Step = Step(outcome: Outcome<ParseError>, state: State, queue: seq<Symbol>)

  predicate IsOperator(t: Symbol, lexeme: string) {
    t.kind == OPERATOR && t.lexeme == Some(lexeme)
  }

  /** `_parse_a_command`: the symbol after `@` must be an identifier or a number. */
  function ParseASpec(st: State, q: seq<Symbol>): Step {
    if q == [] then Step(Fail(NoSymbol), st, q)
    else if q[0].kind == IDENTIFIER || q[0].kind == NUMBER then
      Step(Pass, State(Some(A_COMMAND), q[0].lexeme), RotateOnce(q))
    else Step(Fail(BadCommand), st, RotateOnce(q))
  }

  /** `advance`: `@` starts an A-command, `(` is a label, any other operator raises, and
      any other symbol is a C-command. */
  function AdvanceSpec(st: State, q: seq<Symbol>): Step {
    if q == [] then Step(Fail(NoSymbol), st, q)
    else if q[0].kind == OPERATOR then
      if q[0].lexeme == Some("@") then ParseASpec(st, RotateOnce(q))
      else if q[0].lexeme == Some("(") then Step(Pass, st.(commandType := Some(L_COMMAND)), RotateOnce(q))
      else Step(Fail(BadCommand), st, RotateOnce(q))
    else Step(Pass, st.(commandType := Some(C_COMMAND)), RotateOnce(q))
  }

  /** How many symbols one `advance` reads: two for `@`, one otherwise. */
  function Consumed(q: seq<Symbol>): nat {
    if q == [] then 0 else if IsOperator(q[0], "@") then 2 else 1
  }

  /** Every `advance` rotates the queue by the symbols it reads and keeps its contents. */
  lemma AdvanceReads(st: State, q: seq<Symbol>)
    ensures var r := AdvanceSpec(st, q);
      r.queue == Rotated(q, Consumed(q)) && multiset(r.queue) == multiset(q)
  {
    RotatedKeepsContents(q, Consumed(q));
    assert Rotated(q, 1) == RotateOnce(q);
    assert Rotated(q, 2) == RotateOnce(RotateOnce(q));
  }

  /** `@` followed by an identifier or a number is an A-command whose symbol is that lexeme. */
  lemma AdvanceACommand(st: State, q: seq<Symbol>)
    requires |q| >= 2 && IsOperator(q[0], "@") && (q[1].kind == IDENTIFIER || q[1].kind == NUMBER)
    ensures AdvanceSpec(st, q) == Step(Pass, State(Some(A_COMMAND), q[1].lexeme), Rotated(q, 2))
  {
    assert RotateOnce(q)[0] == q[1];
    assert Rotated(q, 2) == RotateOnce(RotateOnce(q)) by {
      assert Rotated(q, 1) == RotateOnce(q);
    }
  }

  /** `@` followed by anything else raises and leaves the fields as they were. */
  lemma AdvanceAFails(st: State, q: seq<Symbol>)
    requires |q| >= 2 && IsOperator(q[0], "@") && q[1].kind != IDENTIFIER && q[1].kind != NUMBER
    ensures AdvanceSpec(st, q) == Step(Fail(BadCommand), st, Rotated(q, 2))
  {
    assert RotateOnce(q)[0] == q[1];
    assert Rotated(q, 2) == RotateOnce(RotateOnce(q)) by {
      assert Rotated(q, 1) == RotateOnce(q);
    }
  }

  /** `(` is a label: only that symbol is read, and `symbol` keeps its earlier value. */
  lemma AdvanceLabel(st: State, q: seq<Symbol>)
    requires q != [] && IsOperator(q[0], "(")
    ensures AdvanceSpec(st, q) == Step(Pass, State(Some(L_COMMAND), st.symbol), RotateOnce(q))
  {
  }

  /** A symbol that is not an operator is a C-command, read alone; `symbol` is unchanged. */
  lemma AdvanceCCommand(st: State, q: seq<Symbol>)
    requires q != [] && q[0].kind != OPERATOR
    ensures AdvanceSpec(st, q) == Step(Pass, State(Some(C_COMMAND), st.symbol), RotateOnce(q))
  {
  }

  /** `advance` raises exactly on a drained queue, an operator other than `@` and `(`, or an
      `@` not followed by an identifier or a number; a raise leaves the fields unchanged. */
  lemma AdvanceFails(st: State, q: seq<Symbol>)
    ensures var r := AdvanceSpec(st, q);
      (r.outcome.Fail? <==>
        q == []
        || (q[0].kind == OPERATOR && q[0].lexeme != Some("@") && q[0].lexeme != Some("("))
        || (q[0].kind == OPERATOR && q[0].lexeme == Some("@")
            && RotateOnce(q)[0].kind != IDENTIFIER && RotateOnce(q)[0].kind != NUMBER))
      && (r.outcome.Fail? ==> r.state == st)
      && (r.outcome == Fail(NoSymbol) <==> q == [])
  {
  }

  /**
   * As written, a label declaration `(L)` cannot be parsed: `(` gives L_COMMAND without
   * reading the name, the name is then taken for a C-command, and `)` raises.
   */
  lemma LabelDeclarationFails(st: State, name: string, rest: seq<Symbol>)
    ensures var q := [Symbol(OPERATOR, Some("(")), Symbol(IDENTIFIER, Some(name)), Symbol(OPERATOR, Some(")"))] + rest;
      var r1 := AdvanceSpec(st, q);
      var r2 := AdvanceSpec(r1.state, r1.queue);
      var r3 := AdvanceSpec(r2.state, r2.queue);
      r1.outcome == Pass && r1.state == State(Some(L_COMMAND), st.symbol)
      && r2.outcome == Pass && r2.state == State(Some(C_COMMAND), st.symbol)
      && r3.outcome == Fail(BadCommand)
  {
    var q := [Symbol(OPERATOR, Some("(")), Symbol(IDENTIFIER, Some(name)), Symbol(OPERATOR, Some(")"))] + rest;
    var q1 := RotateOnce(q);
    assert q1[0] == q[1];
    var q2 := RotateOnce(q1);
    assert q2[0] == q[2];
  }

  /** The evidently intended label rule: `(`, a name and `)` are read together, and the name
      becomes `symbol`. Anything else after `(` raises. */
  function CorrectedAdvanceSpec(st: State, q: seq<Symbol>): Step {
    if |q| >= 3 && IsOperator(q[0], "(") then
      if q[1].kind == IDENTIFIER && IsOperator(q[2], ")") then
        Step(Pass, State(Some(L_COMMAND), q[1].lexeme), Rotated(q, 3))
      else Step(Fail(BadCommand), st, Rotated(q, 3))
    else AdvanceSpec(st, q)
  }

  /** With the corrected rule, `(L)` is one L-command naming `L`, and the symbol after it is
      read next. */
  lemma CorrectedLabel(st: State, name: string, rest: seq<Symbol>)
    ensures var q := [Symbol(OPERATOR, Some("(")), Symbol(IDENTIFIER, Some(name)), Symbol(OPERATOR, Some(")"))] + rest;
      var r := CorrectedAdvanceSpec(st, q);
      r.outcome == Pass && r.state == State(Some(L_COMMAND), Some(name))
      && r.queue == rest + q[..3]
  {
    var q := [Symbol(OPERATOR, Some("(")), Symbol(IDENTIFIER, Some(name)), Symbol(OPERATOR, Some(")"))] + rest;
    RotatedSplits(q, 3);
    assert q[3..] == rest;
  }

  /** The parser over the lexer it builds and runs; both fields start unset. */
  class Parser {
    const lexer: Lexer
    var commandType: Option<CommandType>
    var symbol: Option<string>

    /** The `command_type` and `symbol` properties together. */
    function Fields(): State
      reads this
    {
      State(commandType, symbol)
    }

    constructor (text: string)
      ensures fresh(lexer) && lexer.source == text
      ensures lexer.symbols == Scan(text, 0)
      ensures Fields() == State(None, None)
    {
      lexer := new Lexer(text);
      new;
      lexer.Analyze();
      commandType := None;
      symbol := None;
    }

    /** The lexer's `get_next_symbol`: the front symbol, moved to the back of the deque. */
    method GetNextSymbol() returns (t: Option<Symbol>)
      modifies lexer`symbols
      ensures lexer.symbols == RotateOnce(old(lexer.symbols))
      ensures t == if old(lexer.symbols) == [] then None else Some(old(lexer.symbols)[0])
    {
      if lexer.symbols == [] {
        return None;
      }
      t := Some(lexer.symbols[0]);
      lexer.symbols := lexer.symbols[1..] + [lexer.symbols[0]];
    }

    /** `has_more_commands`, through the lexer's `has_more_symbols`: a symbol other than EOF
        is at the front. */
    function HasMoreCommands(): (b: bool)
      reads this, lexer
      ensures b <==> lexer.symbols != [] && lexer.symbols[0].kind != HackToken.EOF
    {
      |lexer.symbols| > 0 && lexer.symbols[0].kind != HackToken.EOF
    }

    /** `_parse_a_command`. */
    method ParseACommand() returns (o: Outcome<ParseError>)
      modifies this, lexer`symbols
      ensures Step(o, Fields(), lexer.symbols) == ParseASpec(old(Fields()), old(lexer.symbols))
    {
      var t := GetNextSymbol();
      if t.None? {
        return Fail(NoSymbol);
      }
      if t.value.kind == IDENTIFIER || t.value.kind == NUMBER {
        commandType := Some(A_COMMAND);
        symbol := t.value.lexeme;
        return Pass;
      }
      return Fail(BadCommand);
    }

    /** `advance`. */
    method Advance() returns (o: Outcome<ParseError>)
      modifies this, lexer`symbols
      ensures Step(o, Fields(), lexer.symbols) == AdvanceSpec(old(Fields()), old(lexer.symbols))
    {
      var t := GetNextSymbol();
      if t.None? {
        return Fail(NoSymbol);
      }
      if t.value.kind == OPERATOR {
        if t.value.lexeme == Some("@") {
          o := ParseACommand();
        } else if t.value.lexeme == Some("(") {
          commandType := Some(L_COMMAND);
          o := Pass;
        } else {
          o := Fail(BadCommand);
        }
      } else {
        commandType := Some(C_COMMAND);
        o := Pass;
      }
    }
  }
}
