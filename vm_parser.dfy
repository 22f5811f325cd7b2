/**
 * The VM command parser (07/Parser.py). It reads the VM lexer's rotating token queue and
 * records the type and arguments of one command per `advance`, choosing by a table how
 * many argument tokens the command takes.
 */
module VmParser {
  import opened Wrappers
  import opened VmTokens
  import opened Rotation
  import opened VmLexer

  const NullaryWords: seq<string> := ["add", "sub", "neg", "eq", "gt", "lt", "and", "or", "not", "return"]
  const UnaryWords: seq<string> := ["label", "goto", "if-goto"]
  const BinaryWords: seq<string> := ["push", "pop", "function", "call"]

  /** The dispatch table: how many argument tokens each command word takes. */
  const Commands: map<string, nat> := map[
    "add" := 0, "sub" := 0, "neg" := 0, "eq" := 0, "gt" := 0, "lt" := 0,
    "and" := 0, "or" := 0, "not" := 0, "return" := 0,
    "label" := 1, "goto" := 1, "if-goto" := 1,
    "push" := 2, "pop" := 2, "function" := 2, "call" := 2]

  predicate Distinct(ws: seq<string>) {
    forall i, j | 0 <= i < j < |ws| :: ws[i] != ws[j]
  }

  /** The table gives arity 0 to the ten words of no argument, 1 to the three of one and 2
      to the four of two, and holds no other word. */
  lemma CommandTable()
    ensures |NullaryWords| == 10 && |UnaryWords| == 3 && |BinaryWords| == 4
    ensures forall w | w in NullaryWords :: w in Commands && Commands[w] == 0
    ensures forall w | w in UnaryWords :: w in Commands && Commands[w] == 1
    ensures forall w | w in BinaryWords :: w in Commands && Commands[w] == 2
    ensures forall w | w in Commands :: w in NullaryWords || w in UnaryWords || w in BinaryWords
  {
  }

  /** No word appears twice, so the three groups are disjoint. */
  lemma CommandWordsDistinct()
    ensures Distinct(NullaryWords + UnaryWords + BinaryWords)
  {
  }

  /** `_commands[lexeme]`: the arity, or `None` where the lookup raises (an unknown word, or
      the absent lexeme of EOF). */
  function Arity(lexeme: Option<string>): Option<nat> {
    if lexeme.Some? && lexeme.value in Commands then Some(Commands[lexeme.value]) else None
  }

  /** The parser's fields: `_command_type`, `_arg1`, `_arg2`, `_token` and `_lexeme`. */
  datatype Fields = Fields(
    commandType: Option<VmToken>, arg1: Option<string>, arg2: Option<string>,
    token: Option<VmToken>, lexeme: Option<string>)

  /**
   * The fields and the token queue after one `advance`. Every read rotates the queue; an
   * empty queue makes the first read raise, and an unknown word makes the table lookup
   * raise. Both are caught: the command type becomes ERROR and the tokens read stay read.
   */
  function AdvanceSpec(f: Fields, q: seq<Token>): (r: (Fields, seq<Token>))
  {
    var f0 := f.(arg1 := None, arg2 := None);
    if q == [] then (f0.(commandType := Some(ERROR)), q)
    else
      var t := q[0];
      var q1 := RotateOnce(q);
      var f1 := f0.(token := Some(t.kind), lexeme := t.lexeme);
      if Arity(t.lexeme).None? then (f1.(commandType := Some(ERROR)), q1)
      else if Arity(t.lexeme).value == 0 then
        (f1.(commandType := Some(t.kind), arg1 := if t.kind == ARITHMETIC then t.lexeme else None), q1)
      else
        var u := q1[0];
        var q2 := RotateOnce(q1);
        var f2 := f1.(commandType := Some(t.kind), token := Some(u.kind), lexeme := u.lexeme, arg1 := u.lexeme);
        if Arity(t.lexeme).value == 1 then (f2, q2)
        else
          var w := q2[0];
          (f2.(token := Some(w.kind), lexeme := w.lexeme, arg2 := w.lexeme), RotateOnce(q2))
  }

  /** How many tokens one `advance` reads from the queue `q`. */
  function Consumed(q: seq<Token>): nat {
    if q == [] then 0
    else match Arity(q[0].lexeme)
      case None => 1
      case Some(n) => n + 1
  }

  /** `advance` reads the command word and then its arguments, in queue order and wrapping
      around at the end: the queue is rotated by the number of tokens read, its contents
      are unchanged, and the recorded arguments are the lexemes of the tokens read. */
  lemma AdvanceReads(f: Fields, q: seq<Token>)
    ensures var (g, q') := AdvanceSpec(f, q);
      q' == Rotated(q, Consumed(q)) && multiset(q') == multiset(q)
      && (q != [] ==>
            g.token == Some(Rotated(q, Consumed(q) - 1)[0].kind)
            && g.lexeme == Rotated(q, Consumed(q) - 1)[0].lexeme)
  {
    RotatedKeepsContents(q, Consumed(q));
    if q != [] {
      var q1 := RotateOnce(q);
      var q2 := RotateOnce(q1);
      assert Rotated(q, 1) == q1;
      assert Rotated(q, 2) == q2;
      assert Rotated(q, 3) == RotateOnce(q2);
    }
  }

  /** A command's arguments are the lexemes of the tokens read after it, in queue order and
      wrapping around at the end: in the two-token queue of `push` and EOF, arg1 is EOF's
      lexeme and arg2 the lexeme of `push` itself. */
  lemma AdvanceArguments(f: Fields, q: seq<Token>)
    requires q != [] && Arity(q[0].lexeme).Some?
    ensures var g := AdvanceSpec(f, q).0;
      g.commandType == Some(q[0].kind)
      && (Arity(q[0].lexeme) == Some(0) ==>
            g.arg1 == (if q[0].kind == ARITHMETIC then q[0].lexeme else None) && g.arg2 == None)
      && (Arity(q[0].lexeme) == Some(1) ==> g.arg1 == RotateOnce(q)[0].lexeme && g.arg2 == None)
      && (Arity(q[0].lexeme) == Some(2) ==>
            g.arg1 == RotateOnce(q)[0].lexeme && g.arg2 == RotateOnce(RotateOnce(q))[0].lexeme)
  {
  }

  /** In a long enough queue the arguments are simply the next lexemes. */
  lemma AdvanceArgumentsInOrder(f: Fields, q: seq<Token>)
    requires |q| >= 3 && Arity(q[0].lexeme).Some?
    ensures var g := AdvanceSpec(f, q).0;
      (Arity(q[0].lexeme) == Some(1) ==> g.arg1 == q[1].lexeme)
      && (Arity(q[0].lexeme) == Some(2) ==> g.arg1 == q[1].lexeme && g.arg2 == q[2].lexeme)
  {
    AdvanceArguments(f, q);
    var q1 := RotateOnce(q);
    assert q1[0] == q[1] && q1[1] == q[2];
  }

  /** A file holding only `push`: the command word and EOF. The second read wraps around, so
      arg1 is EOF's absent lexeme and arg2 is `push` again; three reads leave EOF in front. */
  lemma PushWrapsAround(f: Fields)
    ensures var q := [Token(PUSH, Some("push")), Token(VmToken.EOF, None)];
      AdvanceSpec(f, q).0 == Fields(Some(PUSH), None, Some("push"), Some(PUSH), Some("push"))
      && AdvanceSpec(f, q).1 == [q[1], q[0]]
  {
  }

  /** `advance` records ERROR exactly when the queue is empty, the word is not in the table,
      or the word's own token is an ERROR token; then neither argument is set. */
  lemma AdvanceError(f: Fields, q: seq<Token>)
    ensures var g := AdvanceSpec(f, q).0;
      (g.commandType == Some(ERROR) <==>
        q == [] || Arity(q[0].lexeme).None? || q[0].kind == ERROR)
      && (q == [] || Arity(q[0].lexeme).None? ==> g.arg1 == None && g.arg2 == None)
  {
  }

  /** Every `advance` first clears both arguments, so a command of no argument other than an
      arithmetic one leaves `arg1` unset: `return` has no `arg1`. */
  lemma ReturnHasNoArgument(f: Fields, q: seq<Token>)
    requires q != [] && q[0] == Token(RETURN, Some("return"))
    ensures AdvanceSpec(f, q).0.commandType == Some(RETURN)
    ensures AdvanceSpec(f, q).0.arg1 == None && AdvanceSpec(f, q).0.arg2 == None
  {
  }

  /** `push constant 7` gives PUSH with the raw lexemes as arguments; the index stays a string. */
  lemma PushConstantExample(f: Fields)
    ensures var q := [Token(PUSH, Some("push")), Token(IDENTIFIER, Some("constant")),
                      Token(NUMBER, Some("7")), Token(VmToken.EOF, None)];
      AdvanceSpec(f, q).0 == Fields(Some(PUSH), Some("constant"), Some("7"), Some(NUMBER), Some("7"))
      && AdvanceSpec(f, q).1 == [q[3], q[0], q[1], q[2]]
  {
  }

  class Parser {
    const lexer: Lexer
    var commandType: Option<VmToken>
    var arg1: Option<string>
    var arg2: Option<string>
    var token: Option<VmToken>
    var lexeme: Option<string>

    function State(): Fields
      reads this
    {
      Fields(commandType, arg1, arg2, token, lexeme)
    }

    /** The parser over a lexer that `analyze` has run on; every field starts unset. */
    constructor (lx: Lexer)
      ensures lexer == lx && State() == Fields(None, None, None, None, None)
    {
      lexer := lx;
      commandType := None;
      arg1 := None;
      arg2 := None;
      token := None;
      lexeme := None;
    }

    /** `_get_next_token`: unpacking the lexer's `None` raises, which `ok == false` reports. */
    method GetNextToken() returns (ok: bool)
      modifies this`token, this`lexeme, lexer`tokens
      ensures lexer.tokens == RotateOnce(old(lexer.tokens))
      ensures ok <==> old(lexer.tokens) != []
      ensures ok ==> token == Some(old(lexer.tokens)[0].kind) && lexeme == old(lexer.tokens)[0].lexeme
      ensures !ok ==> token == old(token) && lexeme == old(lexeme)
    {
      var t := lexer.GetNextToken();
      if t.None? {
        return false;
      }
      token := Some(t.value.kind);
      lexeme := t.value.lexeme;
      return true;
    }

    /** `_nullary`. */
    method Nullary()
      modifies this`commandType, this`arg1
      ensures commandType == token
      ensures arg1 == if token == Some(ARITHMETIC) then lexeme else old(arg1)
    {
      commandType := token;
      if commandType == Some(ARITHMETIC) {
        arg1 := lexeme;
      }
    }

    /** `_unary`: the command type, then one more token whose lexeme is `arg1`. */
    method Unary() returns (ok: bool)
      modifies this`commandType, this`arg1, this`token, this`lexeme, lexer`tokens
      ensures commandType == old(token)
      ensures lexer.tokens == RotateOnce(old(lexer.tokens))
      ensures ok <==> old(lexer.tokens) != []
      ensures ok ==> token == Some(old(lexer.tokens)[0].kind) && lexeme == old(lexer.tokens)[0].lexeme
      ensures ok ==> arg1 == lexeme
      ensures !ok ==> token == old(token) && lexeme == old(lexeme) && arg1 == old(arg1)
    {
      commandType := token;
      ok := GetNextToken();
      if !ok {
        return;
      }
      arg1 := lexeme;
    }

    /** `_binary`: as `_unary`, then one more token whose lexeme is `arg2`. */
    method Binary() returns (ok: bool)
      modifies this`commandType, this`arg1, this`arg2, this`token, this`lexeme, lexer`tokens
      ensures old(lexer.tokens) != [] ==>
        ok && commandType == old(token) && lexer.tokens == RotateOnce(RotateOnce(old(lexer.tokens)))
        && arg1 == old(lexer.tokens)[0].lexeme
        && token == Some(RotateOnce(old(lexer.tokens))[0].kind)
        && lexeme == RotateOnce(old(lexer.tokens))[0].lexeme && arg2 == lexeme
      ensures old(lexer.tokens) == [] ==>
        !ok && lexer.tokens == [] && commandType == old(token)
        && token == old(token) && lexeme == old(lexeme) && arg1 == old(arg1) && arg2 == old(arg2)
    {
      ok := Unary();
      if !ok {
        return;
      }
      ok := GetNextToken();
      if !ok {
        return;
      }
      arg2 := lexeme;
    }

    /** `advance`: reads the next command; any exception on the way sets the type to ERROR. */
    method Advance()
      modifies this`commandType, this`arg1, this`arg2, this`token, this`lexeme, lexer`tokens
      ensures (State(), lexer.tokens) == AdvanceSpec(old(State()), old(lexer.tokens))
    {
      arg1 := None;
      arg2 := None;
      var ok := GetNextToken();
      if ok {
        var n := Arity(lexeme);
        if n.None? {
          ok := false;
        } else if n.value == 0 {
          Nullary();
        } else if n.value == 1 {
          ok := Unary();
        } else {
          ok := Binary();
        }
      }
      if !ok {
        commandType := Some(ERROR);
      }
    }

    /** `has_more_commands`: the lexer's `has_more_tokens`. */
    function HasMoreCommands(): (b: bool)
      reads this, lexer
      ensures b <==> lexer.tokens != [] && lexer.tokens[0].kind != VmToken.EOF
    {
      lexer.HasMoreTokens()
    }

    /** `command_type`. */
    function CommandType(): (r: Option<VmToken>)
      reads this
      ensures r == State().commandType
    {
      commandType
    }

    /** `arg1`. */
    function Arg1(): (r: Option<string>)
      reads this
      ensures r == State().arg1
    {
      arg1
    }

    /** `arg2`. */
    function Arg2(): (r: Option<string>)
      reads this
      ensures r == State().arg2
    {
      arg2
    }
  }
}
