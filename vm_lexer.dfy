/**
 * The lexer of the VM intermediate language (07/Lexer.py). The input file is the text
 * `source`, whose lines end in '\n'. The file's character generator is modelled by a
 * position `pos` in that text together with the flag that tells it to drop the rest of the
 * current line. Token kinds are those of 08/VmToken.py, which the lexer's keyword table
 * needs (07/VmToken.py has only IDENTIFIER, NUMBER, EOF and ERROR).
 */
module VmLexer {
  import opened Wrappers
  import opened Text
  import opened VmTokens
  import opened Rotation

  datatype CharClass = LETTER | DIGIT | WHITESPACE | MISC_CHAR | OTHER | EOF

  /** A token and its lexeme; EOF carries no lexeme. */
  datatype Token = Token(kind: VmToken, lexeme: Option<string>)

  /** The class `_get_char` gives a character. */
  function ClassOf(c: char): CharClass {
    if IsLetter(c) then LETTER
    else if IsDigit(c) then DIGIT
    else if IsSpace(c) then WHITESPACE
    else if c == '_' || c == '.' then MISC_CHAR
    else OTHER
  }

  predicate IsBlank(c: char) { ClassOf(c) == WHITESPACE }
  predicate IsWordStart(c: char) { ClassOf(c) == LETTER || ClassOf(c) == MISC_CHAR }
  predicate IsWordChar(c: char) { ClassOf(c) == LETTER || ClassOf(c) == DIGIT || ClassOf(c) == MISC_CHAR }
  predicate IsDigitChar(c: char) { ClassOf(c) == DIGIT }

  const ArithmeticWords: seq<string> := ["add", "sub", "neg", "eq", "gt", "lt", "and", "or", "not"]

  /** The token kind of a word: an arithmetic command, a command keyword or an identifier. */
  function LookupKeyword(lexeme: string): VmToken {
    if lexeme in ArithmeticWords then ARITHMETIC
    else if lexeme == "push" then PUSH
    else if lexeme == "pop" then POP
    else if lexeme == "label" then LABEL
    else if lexeme == "goto" then GOTO
    else if lexeme == "if-goto" then IF
    else if lexeme == "function" then FUNCTION
    else if lexeme == "call" then CALL
    else if lexeme == "return" then RETURN
    else IDENTIFIER
  }

  /** The kinds a word can be given. */
  predicate IsWordKind(k: VmToken) {
    k == IDENTIFIER || k == ARITHMETIC || k == PUSH || k == POP || k == LABEL || k == GOTO
    || k == IF || k == FUNCTION || k == CALL || k == RETURN
  }

  lemma LookupKeywordIsWordKind(lexeme: string)
    ensures IsWordKind(LookupKeyword(lexeme))
    ensures LookupKeyword(lexeme) != NUMBER && LookupKeyword(lexeme) != VmToken.EOF && LookupKeyword(lexeme) != ERROR
  {
  }

  /** Only the nine arithmetic words are ARITHMETIC, and a word outside the seventeen
      command words is an identifier. */
  lemma LookupKeywordClasses(lexeme: string)
    ensures LookupKeyword(lexeme) == ARITHMETIC <==> lexeme in ArithmeticWords
    ensures LookupKeyword(lexeme) == IDENTIFIER <==>
      lexeme !in ArithmeticWords + ["push", "pop", "label", "goto", "if-goto", "function", "call", "return"]
    ensures LookupKeyword(lexeme) == IF <==> lexeme == "if-goto"
  {
  }

  /**
   * What one call of `_lex` returns when the current character is at index `c` (`|s|` once
   * the text is exhausted), and the index of the current character afterwards. A comment
   * yields no token.
   */
  function LexToken(s: string, c: nat): (r: (Option<Token>, nat))
    requires c <= |s|
    ensures c <= r.1 <= |s|
  {
    var b := ScanWhile(s, c, IsBlank);
    if b == |s| then (Some(Token(VmToken.EOF, None)), b)
    else if IsWordStart(s[b]) then
      var e := ScanWhile(s, b + 1, IsWordChar);
      (Some(Token(LookupKeyword(s[b..e]), Some(s[b..e]))), e)
    else if IsDigitChar(s[b]) then
      var e := ScanWhile(s, b + 1, IsDigitChar);
      (Some(Token(NUMBER, Some(s[b..e]))), e)
    else if s[b] == '/' && b + 1 < |s| && s[b + 1] == '/' then (None, NextLine(s, b + 2))
    else if s[b] == '/' then (Some(Token(ERROR, Some("/"))), b + 1)
    else (Some(Token(ERROR, Some([s[b]]))), b)
  }

  /** A token that is neither EOF nor ERROR consumes at least one character; so does a comment. */
  lemma LexTokenAdvances(s: string, c: nat)
    requires c <= |s|
    ensures var r := LexToken(s, c);
      r.0 == None || (r.0.value.kind != VmToken.EOF && r.0.value.kind != ERROR) ==> c < r.1
  {
  }

  /** The tokens of an `analyze` run from index `c`, and the ERROR token that stops it, if any. */
  datatype Scanned = Scanned(tokens: seq<Token>, failure: Option<Token>)

  function Scan(s: string, c: nat): (r: Scanned)
    requires c <= |s|
    decreases |s| - c
  {
    var (t, d) := LexToken(s, c);
    if t.None? then
      LexTokenAdvances(s, c);
      Scan(s, d)
    else if t.value.kind == ERROR then Scanned([], t)
    else if t.value.kind == VmToken.EOF then Scanned([t.value], None)
    else
      LexTokenAdvances(s, c);
      var rest := Scan(s, d);
      Scanned([t.value] + rest.tokens, rest.failure)
  }

  /** One step of `analyze`, with the token and the next position named. */
  lemma ScanStep(s: string, c: nat, t: Option<Token>, d: nat)
    requires c <= |s| && (t, d) == LexToken(s, c)
    ensures d <= |s|
    ensures t.None? ==> c < d && Scan(s, c) == Scan(s, d)
    ensures t.Some? && t.value.kind == ERROR ==> Scan(s, c) == Scanned([], t)
    ensures t.Some? && t.value.kind == VmToken.EOF ==> Scan(s, c) == Scanned([t.value], None)
    ensures t.Some? && t.value.kind != ERROR && t.value.kind != VmToken.EOF ==>
      c < d && Scan(s, c) == Scanned([t.value] + Scan(s, d).tokens, Scan(s, d).failure)
  {
    LexTokenAdvances(s, c);
  }

  /** A token the lexer can produce: words carry the kind of their spelling, numbers are digit
      strings, ERROR tokens spell the offending character and EOF has no lexeme. */
  predicate WellFormed(t: Token) {
    match t.kind
    case EOF => t.lexeme == None
    case NUMBER => t.lexeme.Some? && IsNumeral(t.lexeme.value)
    case ERROR => t.lexeme.Some? && |t.lexeme.value| == 1
    case _ =>
      t.lexeme.Some? && |t.lexeme.value| > 0 && IsWordStart(t.lexeme.value[0])
      && (forall i | 0 < i < |t.lexeme.value| :: IsWordChar(t.lexeme.value[i]))
      && t.kind == LookupKeyword(t.lexeme.value)
  }

  /** Words and numbers are maximal: the character after them cannot extend them, and
      the characters skipped before them are blanks. */
  lemma LexTokenMaximal(s: string, c: nat)
    requires c <= |s|
    ensures var (t, d) := LexToken(s, c);
      var b := ScanWhile(s, c, IsBlank);
      (forall k | c <= k < b :: IsBlank(s[k]))
      && (t.Some? && IsWordKind(t.value.kind) ==>
            t.value.lexeme == Some(s[b..d]) && (d == |s| || !IsWordChar(s[d])))
      && (t.Some? && t.value.kind == NUMBER ==>
            t.value.lexeme == Some(s[b..d]) && (d == |s| || !IsDigit(s[d])))
  {
    var b := ScanWhile(s, c, IsBlank);
    if b < |s| && IsWordStart(s[b]) {
      LookupKeywordIsWordKind(s[b..ScanWhile(s, b + 1, IsWordChar)]);
    }
  }

  lemma WordWellFormed(s: string, b: nat, e: nat)
    requires b < e <= |s| && IsWordStart(s[b])
    requires forall k | b + 1 <= k < e :: IsWordChar(s[k])
    ensures WellFormed(Token(LookupKeyword(s[b..e]), Some(s[b..e])))
  {
    LookupKeywordIsWordKind(s[b..e]);
    assert s[b..e][0] == s[b];
    assert forall i | 0 < i < e - b :: s[b..e][i] == s[b + i];
  }

  lemma NumberWellFormed(s: string, b: nat, e: nat)
    requires b < e <= |s|
    requires forall k | b <= k < e :: IsDigitChar(s[k])
    ensures WellFormed(Token(NUMBER, Some(s[b..e])))
  {
    assert forall i | 0 <= i < e - b :: s[b..e][i] == s[b + i];
  }

  lemma LexTokenWellFormed(s: string, c: nat)
    requires c <= |s|
    ensures LexToken(s, c).0.Some? ==> WellFormed(LexToken(s, c).0.value)
  {
    var b := ScanWhile(s, c, IsBlank);
    if b < |s| && IsWordStart(s[b]) {
      WordWellFormed(s, b, ScanWhile(s, b + 1, IsWordChar));
    } else if b < |s| && IsDigitChar(s[b]) {
      NumberWellFormed(s, b, ScanWhile(s, b + 1, IsDigitChar));
    }
  }

  /** Every token in a scan is well formed, and none is ERROR. */
  lemma {:induction false} ScanTokensWellFormed(s: string, c: nat)
    requires c <= |s|
    ensures forall i | 0 <= i < |Scan(s, c).tokens| ::
      WellFormed(Scan(s, c).tokens[i]) && Scan(s, c).tokens[i].kind != ERROR
    decreases |s| - c
  {
    var (t, d) := LexToken(s, c);
    ScanStep(s, c, t, d);
    if t.Some? && t.value.kind != ERROR {
      LexTokenWellFormed(s, c);
    }
    if t.None? || (t.value.kind != ERROR && t.value.kind != VmToken.EOF) {
      ScanTokensWellFormed(s, d);
    }
  }

  /** The only EOF in a scan is its last token. */
  lemma {:induction false} ScanEofIsLast(s: string, c: nat)
    requires c <= |s|
    ensures forall i | 0 <= i < |Scan(s, c).tokens| - 1 :: Scan(s, c).tokens[i].kind != VmToken.EOF
    decreases |s| - c
  {
    var (t, d) := LexToken(s, c);
    ScanStep(s, c, t, d);
    if t.None? {
      ScanEofIsLast(s, d);
    } else if t.value.kind != ERROR && t.value.kind != VmToken.EOF {
      ScanEofIsLast(s, d);
      ConsNoEarlyEof(t.value, Scan(s, d).tokens, Scan(s, c).tokens);
    }
  }

  /** A token other than EOF in front of tokens whose only EOF is last. */
  lemma ConsNoEarlyEof(x: Token, rest: seq<Token>, r: seq<Token>)
    requires r == [x] + rest && x.kind != VmToken.EOF
    requires forall i | 0 <= i < |rest| - 1 :: rest[i].kind != VmToken.EOF
    ensures forall i | 0 <= i < |r| - 1 :: r[i].kind != VmToken.EOF
  {
    assert forall i | 1 <= i < |r| :: r[i] == rest[i - 1];
  }

  /** A scan stops on an ERROR token exactly when it does not end with EOF. */
  lemma {:induction false} ScanFailsWithoutEof(s: string, c: nat)
    requires c <= |s|
    ensures var r := Scan(s, c);
      (r.failure.None? <==> |r.tokens| > 0 && r.tokens[|r.tokens| - 1].kind == VmToken.EOF)
      && (r.failure.Some? ==> r.failure.value.kind == ERROR)
    decreases |s| - c
  {
    var (t, d) := LexToken(s, c);
    ScanStep(s, c, t, d);
    if t.None? {
      ScanFailsWithoutEof(s, d);
    } else if t.value.kind != ERROR && t.value.kind != VmToken.EOF {
      ScanFailsWithoutEof(s, d);
      var rest := Scan(s, d).tokens;
      assert rest != [] ==> Scan(s, c).tokens[|rest|] == rest[|rest| - 1];
    }
  }

  /** After a successful `analyze` the tokens hold no ERROR and end with their only EOF. */
  lemma ScanSucceeds(s: string)
    requires Scan(s, 0).failure.None?
    ensures var r := Scan(s, 0).tokens;
      |r| > 0 && r[|r| - 1].kind == VmToken.EOF
      && (forall i | 0 <= i < |r| - 1 :: r[i].kind != VmToken.EOF)
      && (forall i | 0 <= i < |r| :: r[i].kind != ERROR)
  {
    ScanTokensWellFormed(s, 0);
    ScanEofIsLast(s, 0);
    ScanFailsWithoutEof(s, 0);
  }

  /** A well-formed token is never IF: `-` is not a word character, so the word `if-goto`
      cannot be lexed. */
  lemma WellFormedIsNotIf(t: Token)
    requires WellFormed(t)
    ensures t.kind != IF
  {
    var w := "if-goto";
    assert !IsWordChar(w[2]);
  }

  /** The lexer never yields an IF token. */
  lemma ScanHasNoIf(s: string, c: nat)
    requires c <= |s|
    ensures forall i | 0 <= i < |Scan(s, c).tokens| :: Scan(s, c).tokens[i].kind != IF
  {
    ScanTokensWellFormed(s, c);
    forall i | 0 <= i < |Scan(s, c).tokens|
      ensures Scan(s, c).tokens[i].kind != IF
    {
      WellFormedIsNotIf(Scan(s, c).tokens[i]);
    }
  }

  /** The command `if-goto L` makes `analyze` raise on the `-`. */
  lemma IfGotoFails()
    ensures Scan("if-goto L", 0) == Scanned([Token(IDENTIFIER, Some("if"))], Some(Token(ERROR, Some("-"))))
  {
    var s := "if-goto L";
    assert ScanWhile(s, 0, IsBlank) == 0;
    assert ScanWhile(s, 1, IsWordChar) == 2 by {
      assert ScanWhile(s, 2, IsWordChar) == 2;
    }
    assert s[0..2] == "if";
    assert LexToken(s, 0) == (Some(Token(IDENTIFIER, Some("if"))), 2);
    assert ScanWhile(s, 2, IsBlank) == 2;
    assert LexToken(s, 2) == (Some(Token(ERROR, Some("-"))), 2);
  }

  /** What one `_lex` does to the split of a whole scan `all` into the tokens `done` so far
      and the scan `before` from the cursor; `after` is the scan from the new cursor. */
  lemma TurnShift(all: Scanned, done: seq<Token>, before: Scanned, t: Option<Token>, after: Scanned)
    requires all.tokens == done + before.tokens && all.failure == before.failure
    requires t.None? ==> before == after
    requires t.Some? && t.value.kind == ERROR ==> before == Scanned([], t)
    requires t.Some? && t.value.kind == VmToken.EOF ==> before == Scanned([t.value], None)
    requires t.Some? && t.value.kind != ERROR && t.value.kind != VmToken.EOF ==>
      before == Scanned([t.value] + after.tokens, after.failure)
    ensures t.None? ==> all.tokens == done + after.tokens && all.failure == after.failure
    ensures t.Some? && t.value.kind == ERROR ==> all.tokens == done && all.failure == t
    ensures t.Some? && t.value.kind == VmToken.EOF ==> all.tokens == done + [t.value] && all.failure.None?
    ensures t.Some? && t.value.kind != ERROR && t.value.kind != VmToken.EOF ==>
      all.tokens == (done + [t.value]) + after.tokens && all.failure == after.failure
  {
    if t.Some? && t.value.kind != ERROR && t.value.kind != VmToken.EOF {
      assert done + ([t.value] + after.tokens) == (done + [t.value]) + after.tokens;
    } else if t.Some? && t.value.kind == ERROR {
      assert done + [] == done;
    }
  }

  /**
   * The VM lexer. `cursor` is the index of the current character `nextChar` (or `|source|`
   * at the end of the text); the generator's own position `pos` is one past it, or past
   * the rest of a dropped line.
   */
  class Lexer {
    const source: string
    var pos: nat
    var skipLine: bool
    var nextChar: Option<char>
    var charClass: CharClass
    var tokens: seq<Token>
    ghost var cursor: nat

    /** `nextChar` and `charClass` describe the character at `cursor`. */
    ghost predicate Current()
      reads this
    {
      pos <= |source| && cursor <= |source| && !skipLine
      && (if cursor < |source| then
            pos == cursor + 1 && nextChar == Some(source[cursor]) && charClass == ClassOf(source[cursor])
          else pos == |source| && nextChar == None && charClass == CharClass.EOF)
    }

    constructor (text: string)
      ensures source == text && pos == 0 && !skipLine && nextChar == None && charClass == CharClass.EOF
      ensures tokens == []
    {
      source := text;
      pos := 0;
      skipLine := false;
      nextChar := None;
      charClass := CharClass.EOF;
      tokens := [];
      cursor := 0;
    }

    /** `_get_char`: the generator first drops the rest of the line when asked to. */
    method GetChar()
      requires pos <= |source|
      modifies this`pos, this`skipLine, this`nextChar, this`charClass, this`cursor
      ensures Current()
      ensures cursor == if old(skipLine) then NextLine(source, old(pos)) else old(pos)
    {
      if skipLine {
        pos := NextLine(source, pos);
        skipLine := false;
      }
      if pos < |source| {
        var c := source[pos];
        nextChar := Some(c);
        if IsLetter(c) {
          charClass := LETTER;
        } else if IsDigit(c) {
          charClass := DIGIT;
        } else if IsSpace(c) {
          charClass := WHITESPACE;
        } else if c == '_' || c == '.' {
          charClass := MISC_CHAR;
        } else {
          charClass := OTHER;
        }
        cursor := pos;
        pos := pos + 1;
      } else {
        nextChar := None;
        charClass := CharClass.EOF;
        cursor := pos;
      }
    }

    /** `_get_non_blank`: skips to the first character that is not a blank. */
    method GetNonBlank()
      requires Current()
      modifies this`pos, this`skipLine, this`nextChar, this`charClass, this`cursor
      ensures Current()
      ensures cursor == ScanWhile(source, old(cursor), IsBlank)
    {
      while charClass == WHITESPACE
        invariant Current() && old(cursor) <= cursor
        invariant forall k | old(cursor) <= k < cursor :: IsBlank(source[k])
        decreases |source| - cursor
      {
        GetChar();
      }
      ScanWhileUnique(source, old(cursor), cursor, IsBlank);
    }

    /** The identifier loop of `_lex`: the current character starts a word; reads the rest of it. */
    method LexWord() returns (lexeme: string)
      requires Current() && cursor < |source| && IsWordStart(source[cursor])
      modifies this`pos, this`skipLine, this`nextChar, this`charClass, this`cursor
      ensures Current() && old(cursor) < cursor
      ensures cursor == ScanWhile(source, old(cursor) + 1, IsWordChar)
      ensures lexeme == source[old(cursor)..cursor]
    {
      ghost var b := cursor;
      lexeme := [nextChar.value];
      GetChar();
      while charClass == LETTER || charClass == DIGIT || charClass == MISC_CHAR
        invariant Current() && b < cursor && lexeme == source[b..cursor]
        invariant forall k | b + 1 <= k < cursor :: IsWordChar(source[k])
        decreases |source| - cursor
      {
        SliceGrows(source, b, cursor);
        lexeme := lexeme + [nextChar.value];
        GetChar();
      }
      ScanWhileUnique(source, b + 1, cursor, IsWordChar);
    }

    /** The integer loop of `_lex`: the current character is a digit; reads the whole run. */
    method LexNumber() returns (lexeme: string)
      requires Current() && cursor < |source| && IsDigitChar(source[cursor])
      modifies this`pos, this`skipLine, this`nextChar, this`charClass, this`cursor
      ensures Current() && old(cursor) < cursor
      ensures cursor == ScanWhile(source, old(cursor) + 1, IsDigitChar)
      ensures lexeme == source[old(cursor)..cursor]
    {
      ghost var b := cursor;
      lexeme := [nextChar.value];
      GetChar();
      while charClass == DIGIT
        invariant Current() && b < cursor && lexeme == source[b..cursor]
        invariant forall k | b + 1 <= k < cursor :: IsDigitChar(source[k])
        decreases |source| - cursor
      {
        SliceGrows(source, b, cursor);
        lexeme := lexeme + [nextChar.value];
        GetChar();
      }
      ScanWhileUnique(source, b + 1, cursor, IsDigitChar);
    }

    /** The comment and error cases of `_lex`: the current character is of class OTHER. */
    method LexOther() returns (t: Option<Token>)
      requires Current() && cursor < |source| && ClassOf(source[cursor]) == OTHER
      modifies this`pos, this`skipLine, this`nextChar, this`charClass, this`cursor
      ensures Current()
      ensures var b := old(cursor);
        if source[b] == '/' && b + 1 < |source| && source[b + 1] == '/' then
          t == None && cursor == NextLine(source, b + 2)
        else if source[b] == '/' then t == Some(Token(ERROR, Some("/"))) && cursor == b + 1
        else t == Some(Token(ERROR, Some([source[b]]))) && cursor == b
    {
      var lexeme := [nextChar.value];
      if nextChar == Some('/') {
        GetChar();
        if nextChar == Some('/') {
          skipLine := true;
          GetChar();
          t := None;
        } else {
          t := Some(Token(ERROR, Some(lexeme)));
        }
      } else {
        t := Some(Token(ERROR, Some(lexeme)));
      }
    }

    /** `_lex`: one token, or `None` after a comment. */
    method Lex() returns (t: Option<Token>)
      requires Current()
      modifies this`pos, this`skipLine, this`nextChar, this`charClass, this`cursor
      ensures Current()
      ensures (t, cursor) == LexToken(source, old(cursor))
    {
      GetNonBlank();
      if charClass == LETTER || charClass == MISC_CHAR {
        var lexeme := LexWord();
        t := Some(Token(LookupKeyword(lexeme), Some(lexeme)));
      } else if charClass == DIGIT {
        var lexeme := LexNumber();
        t := Some(Token(NUMBER, Some(lexeme)));
      } else if charClass == OTHER {
        t := LexOther();
      } else if charClass == CharClass.EOF {
        t := Some(Token(VmToken.EOF, None));
      } else {
        assert false;
      }
    }

    /** `_lex`, described by what it means for the rest of the run. */
    method LexStep() returns (t: Option<Token>)
      requires Current()
      modifies this`pos, this`skipLine, this`nextChar, this`charClass, this`cursor
      ensures Current()
      ensures t.None? ==> old(cursor) < cursor && Scan(source, old(cursor)) == Scan(source, cursor)
      ensures t.Some? && t.value.kind == ERROR ==> Scan(source, old(cursor)) == Scanned([], t)
      ensures t.Some? && t.value.kind == VmToken.EOF ==> Scan(source, old(cursor)) == Scanned([t.value], None)
      ensures t.Some? && t.value.kind != ERROR && t.value.kind != VmToken.EOF ==>
        old(cursor) < cursor
        && Scan(source, old(cursor)) == Scanned([t.value] + Scan(source, cursor).tokens, Scan(source, cursor).failure)
    {
      ghost var c := cursor;
      t := Lex();
      ScanStep(source, c, t, cursor);
    }

    /** One turn of `analyze`'s loop: `_lex`, then the token is appended unless a comment
        gave none; the loop stops after EOF, and raises on ERROR with its lexeme. `done` are
        the tokens appended so far and `all` is what the whole run appends. */
    method AnalyzeTurn(ghost base: seq<Token>, ghost all: Scanned, ghost done: seq<Token>)
      returns (stop: bool, o: Outcome<Option<string>>, ghost done': seq<Token>)
      requires Current() && tokens == base + done
      requires all.tokens == done + Scan(source, cursor).tokens && all.failure == Scan(source, cursor).failure
      modifies this`pos, this`skipLine, this`nextChar, this`charClass, this`cursor, this`tokens
      ensures Current() && tokens == base + done'
      ensures stop ==> done' == all.tokens && o == (if all.failure.None? then Pass else Fail(all.failure.value.lexeme))
      ensures !stop ==>
        old(cursor) < cursor
        && all.tokens == done' + Scan(source, cursor).tokens && all.failure == Scan(source, cursor).failure
    {
      ghost var before := Scan(source, cursor);
      var t := LexStep();
      ghost var after := Scan(source, cursor);
      TurnShift(all, done, before, t, after);
      done' := done;
      if t.None? {
        return false, Pass, done';
      }
      if t.value.kind == ERROR {
        return true, Fail(t.value.lexeme), done';
      }
      tokens := tokens + [t.value];
      done' := done + [t.value];
      o := Pass;
      stop := t.value.kind == VmToken.EOF;
    }

    /** `analyze`: lexes the whole text into `tokens`; an ERROR token raises, carrying its lexeme. */
    method Analyze() returns (o: Outcome<Option<string>>)
      requires pos == 0 && !skipLine
      modifies this`pos, this`skipLine, this`nextChar, this`charClass, this`cursor, this`tokens
      ensures var r := Scan(source, 0);
        tokens == old(tokens) + r.tokens
        && o == (if r.failure.None? then Pass else Fail(r.failure.value.lexeme))
    {
      GetChar();
      ghost var all := Scan(source, 0);
      ghost var done: seq<Token> := [];
      assert all.tokens == done + all.tokens;
      while true
        invariant Current() && tokens == old(tokens) + done
        invariant all.tokens == done + Scan(source, cursor).tokens && all.failure == Scan(source, cursor).failure
        decreases |source| - cursor
      {
        var stop;
        stop, o, done := AnalyzeTurn(old(tokens), all, done);
        if stop {
          return;
        }
      }
    }

    /** `get_next_token`: the front token, which moves to the back; `None` when empty. */
    method GetNextToken() returns (t: Option<Token>)
      modifies this`tokens
      ensures tokens == RotateOnce(old(tokens))
      ensures t == if old(tokens) == [] then None else Some(old(tokens)[0])
    {
      if tokens == [] {
        return None;
      }
      t := Some(tokens[0]);
      tokens := tokens[1..] + [tokens[0]];
    }

    /** `peek_next_token`: the front token, if any. */
    function PeekNextToken(): (t: Option<Token>)
      reads this
      ensures t.Some? <==> tokens != []
      ensures t.Some? ==> t.value == tokens[0]
    {
      if tokens == [] then None else Some(tokens[0])
    }

    /** `has_more_tokens`: the queue is non-empty and its front is not EOF. */
    function HasMoreTokens(): (b: bool)
      reads this
      ensures b <==> tokens != [] && tokens[0].kind != VmToken.EOF
    {
      |tokens| > 0 && PeekNextToken().value.kind != VmToken.EOF
    }
  }
}
