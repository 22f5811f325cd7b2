/**
 * The lexer of Hack assembly (06/Lexer.py). As for the VM lexer, the input file is the text
 * `source` and the character generator is a position in it plus the drop-the-line flag.
 * Token kinds are those of HackToken.py at the top of the repository, the one that has
 * OPERATOR.
 */
module HackLexer {
  import opened Wrappers
  import opened Text

  datatype HackToken = IDENTIFIER | NUMBER | OPERATOR | EOF | ERROR

  datatype CharClass = LETTER | DIGIT | WHITESPACE | MISC_CHAR | OTHER | EOF

  /** A symbol of the assembly text and its lexeme; EOF carries no lexeme. */
  datatype Symbol = Symbol(kind: HackToken, lexeme: Option<string>)

  /** The class `_get_char` gives a character: `_`, `.`, `$` and `:` may appear in symbols. */
  function ClassOf(c: char): CharClass {
    if IsLetter(c) then LETTER
    else if IsDigit(c) then DIGIT
    else if IsSpace(c) then WHITESPACE
    else if c == '_' || c == '.' || c == '$' || c == ':' then MISC_CHAR
    else OTHER
  }

  predicate IsBlank(c: char) { ClassOf(c) == WHITESPACE }
  predicate IsWordStart(c: char) { ClassOf(c) == LETTER || ClassOf(c) == MISC_CHAR }
  predicate IsWordChar(c: char) { ClassOf(c) == LETTER || ClassOf(c) == DIGIT || ClassOf(c) == MISC_CHAR }
  predicate IsDigitChar(c: char) { ClassOf(c) == DIGIT }

  /**
   * What one call of `_lex` returns when the current character is at index `c` (`|s|` at
   * the end), and the index of the current character afterwards. A comment yields no
   * symbol; any other character that starts no word or number is a one-character operator.
   */
  function LexSymbol(s: string, c: nat): (r: (Option<Symbol>, nat))
    requires c <= |s|
    ensures c <= r.1 <= |s|
  {
    var b := ScanWhile(s, c, IsBlank);
    if b == |s| then (Some(Symbol(HackToken.EOF, None)), b)
    else if IsWordStart(s[b]) then
      var e := ScanWhile(s, b + 1, IsWordChar);
      (Some(Symbol(IDENTIFIER, Some(s[b..e]))), e)
    else if IsDigitChar(s[b]) then
      var e := ScanWhile(s, b + 1, IsDigitChar);
      (Some(Symbol(NUMBER, Some(s[b..e]))), e)
    else if s[b] == '/' && b + 1 < |s| && s[b + 1] == '/' then (None, NextLine(s, b + 2))
    else (Some(Symbol(OPERATOR, Some([s[b]]))), b + 1)
  }

  /** Every step but the final EOF consumes at least one character. */
  lemma LexSymbolAdvances(s: string, c: nat)
    requires c <= |s|
    ensures var r := LexSymbol(s, c);
      (r.0.None? || r.0.value.kind != HackToken.EOF ==> c < r.1)
      && (r.0.Some? && r.0.value.kind == HackToken.EOF ==> r.1 == |s|)
  {
  }

  /** The symbols of an `analyze` run from index `c`. */
  function Scan(s: string, c: nat): (r: seq<Symbol>)
    requires c <= |s|
    decreases |s| - c
  {
    var (t, d) := LexSymbol(s, c);
    LexSymbolAdvances(s, c);
    if t.None? then Scan(s, d)
    else if t.value.kind == HackToken.EOF then [t.value]
    else [t.value] + Scan(s, d)
  }

  /** One step of `analyze`, with the symbol and the next position named. */
  lemma ScanStep(s: string, c: nat, t: Option<Symbol>, d: nat)
    requires c <= |s| && (t, d) == LexSymbol(s, c)
    ensures d <= |s|
    ensures t.Some? ==> t.value.kind != ERROR
    ensures t.None? ==> c < d && Scan(s, c) == Scan(s, d)
    ensures t.Some? && t.value.kind == HackToken.EOF ==> Scan(s, c) == [t.value]
    ensures t.Some? && t.value.kind != HackToken.EOF ==> c < d && Scan(s, c) == [t.value] + Scan(s, d)
  {
    LexSymbolAdvances(s, c);
  }

  /** A symbol the lexer can produce: identifiers are runs of symbol characters not starting
      with a digit, numbers are digit strings, operators are one character that starts
      neither, and no lexeme holds a blank. */
  predicate WellFormed(t: Symbol) {
    match t.kind
    case EOF => t.lexeme == None
    case ERROR => false
    case NUMBER => t.lexeme.Some? && IsNumeral(t.lexeme.value)
    case OPERATOR =>
      t.lexeme.Some? && |t.lexeme.value| == 1 && ClassOf(t.lexeme.value[0]) == OTHER
    case IDENTIFIER =>
      t.lexeme.Some? && |t.lexeme.value| > 0 && IsWordStart(t.lexeme.value[0])
      && (forall i | 0 < i < |t.lexeme.value| :: IsWordChar(t.lexeme.value[i]))
  }

  /** No well-formed symbol has a blank in its lexeme. */
  lemma WellFormedHasNoBlank(t: Symbol)
    requires WellFormed(t) && t.lexeme.Some?
    ensures forall i | 0 <= i < |t.lexeme.value| :: !IsBlank(t.lexeme.value[i])
  {
  }

  lemma WordWellFormed(s: string, b: nat, e: nat)
    requires b < e <= |s| && IsWordStart(s[b])
    requires forall k | b + 1 <= k < e :: IsWordChar(s[k])
    ensures WellFormed(Symbol(IDENTIFIER, Some(s[b..e])))
  {
    assert s[b..e][0] == s[b];
    assert forall i | 0 < i < e - b :: s[b..e][i] == s[b + i];
  }

  lemma NumberWellFormed(s: string, b: nat, e: nat)
    requires b < e <= |s|
    requires forall k | b <= k < e :: IsDigitChar(s[k])
    ensures WellFormed(Symbol(NUMBER, Some(s[b..e])))
  {
    assert forall i | 0 <= i < e - b :: s[b..e][i] == s[b + i];
  }

  lemma LexSymbolWellFormed(s: string, c: nat)
    requires c <= |s|
    ensures LexSymbol(s, c).0.Some? ==> WellFormed(LexSymbol(s, c).0.value)
  {
    var b := ScanWhile(s, c, IsBlank);
    if b < |s| && IsWordStart(s[b]) {
      WordWellFormed(s, b, ScanWhile(s, b + 1, IsWordChar));
    } else if b < |s| && IsDigitChar(s[b]) {
      NumberWellFormed(s, b, ScanWhile(s, b + 1, IsDigitChar));
    }
  }

  /** Identifiers and numbers are maximal, and a `/` that does not start a comment is an
      operator after which the next character is already current. */
  lemma LexSymbolMaximal(s: string, c: nat)
    requires c <= |s|
    ensures var (t, d) := LexSymbol(s, c);
      var b := ScanWhile(s, c, IsBlank);
      (t.Some? && t.value.kind == IDENTIFIER ==>
        t.value.lexeme == Some(s[b..d]) && (d == |s| || !IsWordChar(s[d])))
      && (t.Some? && t.value.kind == NUMBER ==>
        t.value.lexeme == Some(s[b..d]) && (d == |s| || !IsDigit(s[d])))
      && (t == Some(Symbol(OPERATOR, Some("/"))) ==> d == b + 1 && (d == |s| || s[d] != '/'))
  {
  }

  /** Every symbol of a scan is well formed (so none is ERROR), the scan ends with EOF, and
      that is its only EOF. */
  lemma {:induction false} ScanWellFormed(s: string, c: nat)
    requires c <= |s|
    ensures var r := Scan(s, c);
      |r| > 0 && r[|r| - 1].kind == HackToken.EOF
      && (forall i | 0 <= i < |r| :: WellFormed(r[i]))
      && (forall i | 0 <= i < |r| - 1 :: r[i].kind != HackToken.EOF)
    decreases |s| - c
  {
    var (t, d) := LexSymbol(s, c);
    ScanStep(s, c, t, d);
    LexSymbolWellFormed(s, c);
    if t.None? {
      ScanWellFormed(s, d);
    } else if t.value.kind != HackToken.EOF {
      ScanWellFormed(s, d);
      ConsWellFormed(t.value, Scan(s, d), Scan(s, c));
    }
  }

  /** A well-formed symbol other than EOF in front of a well-formed scan. */
  lemma ConsWellFormed(x: Symbol, rest: seq<Symbol>, r: seq<Symbol>)
    requires r == [x] + rest && WellFormed(x) && x.kind != HackToken.EOF
    requires |rest| > 0 && rest[|rest| - 1].kind == HackToken.EOF
    requires (forall i | 0 <= i < |rest| :: WellFormed(rest[i]))
    requires (forall i | 0 <= i < |rest| - 1 :: rest[i].kind != HackToken.EOF)
    ensures |r| > 0 && r[|r| - 1].kind == HackToken.EOF
    ensures (forall i | 0 <= i < |r| :: WellFormed(r[i]))
    ensures (forall i | 0 <= i < |r| - 1 :: r[i].kind != HackToken.EOF)
  {
    assert forall i | 1 <= i < |r| :: r[i] == rest[i - 1];
  }

  /** A division sign is an operator, while two slashes comment out the rest of the line. */
  lemma SlashExamples()
    ensures Scan("D/A", 0) == [Symbol(IDENTIFIER, Some("D")), Symbol(OPERATOR, Some("/")),
                              Symbol(IDENTIFIER, Some("A")), Symbol(HackToken.EOF, None)]
    ensures Scan("// x\n@2", 0) == [Symbol(OPERATOR, Some("@")), Symbol(NUMBER, Some("2")),
                                    Symbol(HackToken.EOF, None)]
  {
    var s := "D/A";
    assert ScanWhile(s, 1, IsWordChar) == 1;
    assert s[0..1] == "D";
    assert LexSymbol(s, 0) == (Some(Symbol(IDENTIFIER, Some("D"))), 1);
    assert LexSymbol(s, 1) == (Some(Symbol(OPERATOR, Some("/"))), 2);
    assert ScanWhile(s, 3, IsWordChar) == 3;
    assert s[2..3] == "A";
    assert LexSymbol(s, 2) == (Some(Symbol(IDENTIFIER, Some("A"))), 3);
    assert LexSymbol(s, 3) == (Some(Symbol(HackToken.EOF, None)), 3);
    var u := "// x\n@2";
    assert NextLine(u, 2) == 5 by {
      assert NextLine(u, 4) == 5;
    }
    assert LexSymbol(u, 0) == (None, 5);
    assert LexSymbol(u, 5) == (Some(Symbol(OPERATOR, Some("@"))), 6);
    assert ScanWhile(u, 7, IsDigitChar) == 7;
    assert u[6..7] == "2";
    assert LexSymbol(u, 6) == (Some(Symbol(NUMBER, Some("2"))), 7);
    assert LexSymbol(u, 7) == (Some(Symbol(HackToken.EOF, None)), 7);
  }

  /** The Hack lexer. `cursor` is the index of the current character `nextChar` (or
      `|source|` at the end); the generator's position `pos` is one past it. */
  class Lexer {
    const source: string
    var pos: nat
    var skipLine: bool
    var nextChar: Option<char>
    var charClass: CharClass
    var symbols: seq<Symbol>
    ghost var cursor: nat

    /** `nextChar` and `charClass` describe the character at `cursor`. */
    ghost predicate Current()
      reads this
    {
      pos <= |source| && cursor <= |source| && !skipLine
      && (if cursor < |source| then
            pos == cursor + 1 && nextChar == Some(source[cursor]) && charClass == ClassOf(source[cursor])
          else pos == |source| && nextChar == None && charClass == CharClass.EOF)
    }

    constructor (text: string)
      ensures source == text && pos == 0 && !skipLine && nextChar == None && charClass == CharClass.EOF
      ensures symbols == []
    {
      source := text;
      pos := 0;
      skipLine := false;
      nextChar := None;
      charClass := CharClass.EOF;
      symbols := [];
      cursor := 0;
    }

    /** `_get_char`: the generator first drops the rest of the line when asked to. */
    method GetChar()
      requires pos <= |source|
      modifies this`pos, this`skipLine, this`nextChar, this`charClass, this`cursor
      ensures Current()
      ensures cursor == if old(skipLine) then NextLine(source, old(pos)) else old(pos)
    {
      if skipLine {
        pos := NextLine(source, pos);
        skipLine := false;
      }
      if pos < |source| {
        var c := source[pos];
        nextChar := Some(c);
        if IsLetter(c) {
          charClass := LETTER;
        } else if IsDigit(c) {
          charClass := DIGIT;
        } else if IsSpace(c) {
          charClass := WHITESPACE;
        } else if c == '_' || c == '.' || c == '$' || c == ':' {
          charClass := MISC_CHAR;
        } else {
          charClass := OTHER;
        }
        cursor := pos;
        pos := pos + 1;
      } else {
        nextChar := None;
        charClass := CharClass.EOF;
        cursor := pos;
      }
    }

    /** `_get_non_blank`: skips to the first character that is not a blank. */
    method GetNonBlank()
      requires Current()
      modifies this`pos, this`skipLine, this`nextChar, this`charClass, this`cursor
      ensures Current()
      ensures cursor == ScanWhile(source, old(cursor), IsBlank)
    {
      while charClass == WHITESPACE
        invariant Current() && old(cursor) <= cursor
        invariant forall k | old(cursor) <= k < cursor :: IsBlank(source[k])
        decreases |source| - cursor
      {
        GetChar();
      }
      ScanWhileUnique(source, old(cursor), cursor, IsBlank);
    }

    /** The identifier loop of `_lex`. */
    method LexWord() returns (lexeme: string)
      requires Current() && cursor < |source| && IsWordStart(source[cursor])
      modifies this`pos, this`skipLine, this`nextChar, this`charClass, this`cursor
      ensures Current() && old(cursor) < cursor
      ensures cursor == ScanWhile(source, old(cursor) + 1, IsWordChar)
      ensures lexeme == source[old(cursor)..cursor]
    {
      ghost var b := cursor;
      lexeme := [nextChar.value];
      GetChar();
      while charClass == LETTER || charClass == DIGIT || charClass == MISC_CHAR
        invariant Current() && b < cursor && lexeme == source[b..cursor]
        invariant forall k | b + 1 <= k < cursor :: IsWordChar(source[k])
        decreases |source| - cursor
      {
        SliceGrows(source, b, cursor);
        lexeme := lexeme + [nextChar.value];
        GetChar();
      }
      ScanWhileUnique(source, b + 1, cursor, IsWordChar);
    }

    /** The integer loop of `_lex`. */
    method LexNumber() returns (lexeme: string)
      requires Current() && cursor < |source| && IsDigitChar(source[cursor])
      modifies this`pos, this`skipLine, this`nextChar, this`charClass, this`cursor
      ensures Current() && old(cursor) < cursor
      ensures cursor == ScanWhile(source, old(cursor) + 1, IsDigitChar)
      ensures lexeme == source[old(cursor)..cursor]
    {
      ghost var b := cursor;
      lexeme := [nextChar.value];
      GetChar();
      while charClass == DIGIT
        invariant Current() && b < cursor && lexeme == source[b..cursor]
        invariant forall k | b + 1 <= k < cursor :: IsDigitChar(source[k])
        decreases |source| - cursor
      {
        SliceGrows(source, b, cursor);
        lexeme := lexeme + [nextChar.value];
        GetChar();
      }
      ScanWhileUnique(source, b + 1, cursor, IsDigitChar);
    }

    /** The operator and comment cases of `_lex`: the current character is of class OTHER. */
    method LexOther() returns (t: Option<Symbol>)
      requires Current() && cursor < |source| && ClassOf(source[cursor]) == OTHER
      modifies this`pos, this`skipLine, this`nextChar, this`charClass, this`cursor
      ensures Current()
      ensures var b := old(cursor);
        if source[b] == '/' && b + 1 < |source| && source[b + 1] == '/' then
          t == None && cursor == NextLine(source, b + 2)
        else t == Some(Symbol(OPERATOR, Some([source[b]]))) && cursor == b + 1
    {
      var lexeme := [nextChar.value];
      if nextChar == Some('/') {
        GetChar();
        if nextChar == Some('/') {
          skipLine := true;
          GetChar();
          t := None;
        } else {
          t := Some(Symbol(OPERATOR, Some(lexeme)));
        }
      } else {
        GetChar();
        t := Some(Symbol(OPERATOR, Some(lexeme)));
      }
    }

    /** `_lex`: one symbol, or `None` after a comment. */
    method Lex() returns (t: Option<Symbol>)
      requires Current()
      modifies this`pos, this`skipLine, this`nextChar, this`charClass, this`cursor
      ensures Current()
      ensures (t, cursor) == LexSymbol(source, old(cursor))
    {
      GetNonBlank();
      if charClass == LETTER || charClass == MISC_CHAR {
        var lexeme := LexWord();
        t := Some(Symbol(IDENTIFIER, Some(lexeme)));
      } else if charClass == DIGIT {
        var lexeme := LexNumber();
        t := Some(Symbol(NUMBER, Some(lexeme)));
      } else if charClass == OTHER {
        t := LexOther();
      } else if charClass == CharClass.EOF {
        t := Some(Symbol(HackToken.EOF, None));
      } else {
        assert false;
      }
    }

    /** One turn of `analyze`'s loop: `_lex`, then the symbol is appended unless a comment
        gave none, and the loop stops after EOF. ERROR never comes, so its raise is not
        reached. `done` are the symbols appended so far and `all` is what the whole run
        appends. */
    method AnalyzeTurn(ghost base: seq<Symbol>, ghost all: seq<Symbol>, ghost done: seq<Symbol>)
      returns (stop: bool, ghost done': seq<Symbol>)
      requires Current() && symbols == base + done && all == done + Scan(source, cursor)
      modifies this`pos, this`skipLine, this`nextChar, this`charClass, this`cursor, this`symbols
      ensures Current() && symbols == base + done'
      ensures stop ==> done' == all
      ensures !stop ==> old(cursor) < cursor && all == done' + Scan(source, cursor)
    {
      ghost var c := cursor;
      var t := Lex();
      ScanStep(source, c, t, cursor);
      done' := done;
      if t.None? {
        return false, done';
      }
      if t.value.kind == ERROR {
        assert false;
      }
      symbols := symbols + [t.value];
      done' := done + [t.value];
      stop := t.value.kind == HackToken.EOF;
      if !stop {
        ghost var rest := Scan(source, cursor);
        assert done + ([t.value] + rest) == done' + rest;
      }
    }

    /**
     * `analyze`: lexes the whole text into `symbols`. The source raises on an ERROR symbol,
     * but `_lex` never returns one, so that branch is unreachable and the run always ends
     * after appending EOF.
     */
    method Analyze()
      requires pos == 0 && !skipLine
      modifies this`pos, this`skipLine, this`nextChar, this`charClass, this`cursor, this`symbols
      ensures symbols == old(symbols) + Scan(source, 0)
    {
      GetChar();
      ghost var all := Scan(source, 0);
      ghost var done: seq<Symbol> := [];
      assert all == done + all;
      while true
        invariant Current() && symbols == old(symbols) + done
        invariant all == done + Scan(source, cursor)
        decreases |source| - cursor
      {
        var stop;
        stop, done := AnalyzeTurn(old(symbols), all, done);
        if stop {
          return;
        }
      }
    }
  }
}
