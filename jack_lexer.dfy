/**
 * The Jack tokenizer (10/JackTokenizer.py). As for the other lexers, the input file is the
 * text `source`, and the character generator is a position in it plus the drop-the-line
 * flag. A token's first field holds a JackToken, a JackKeyword or `None`: a kind of its own.
 */
module JackLexer {
  import opened Wrappers
  import opened Text
  import opened Rotation
  import opened JackTokens

  datatype CharClass = LETTER | DIGIT | WHITESPACE | MISC_CHAR | OTHER | EOF

  /** What the first field of a token holds. */
  datatype Kind = Tok(token: JackToken) | Kw(keyword: JackKeyword) | NoKind

  datatype Token = Token(kind: Kind, lexeme: Option<string>)

  /** The symbol characters the tokenizer lists; none of them is lexed as a symbol. */
  const Symbols: seq<char> := [
    '{', '}', '(', ')', '[', ']', '.', ',', ';',
    '+', '-', '*', '/', '&', '|', '<', '>', '=', '~']

  /** The class `_get_char` gives a character: `_` counts as a letter, and no character is
      MISC_CHAR. */
  function ClassOf(c: char): CharClass {
    if IsLetter(c) || c == '_' then LETTER
    else if IsDigit(c) then DIGIT
    else if IsSpace(c) then WHITESPACE
    else OTHER
  }

  predicate IsBlank(c: char) { ClassOf(c) == WHITESPACE }
  predicate IsWordStart(c: char) { ClassOf(c) == LETTER }
  predicate IsWordChar(c: char) { ClassOf(c) == LETTER || ClassOf(c) == DIGIT }
  predicate IsDigitChar(c: char) { ClassOf(c) == DIGIT }

  /** The loop of `_lookup_keyword` over the members `ms`, in order. */
  function FindKeyword(lexeme: string, ms: seq<JackKeyword>): (r: Option<JackKeyword>)
    ensures r.Some? ==> r.value in ms && lexeme == Lower(Name(r.value))
    ensures r.None? ==> forall m | m in ms :: lexeme != Lower(Name(m))
  {
    if ms == [] then None
    else if lexeme == Lower(Name(ms[0])) then Some(ms[0])
    else FindKeyword(lexeme, ms[1..])
  }

  /** `_lookup_keyword`: the member whose lower-cased name is the lexeme, or `None`. */
  function LookupKeyword(lexeme: string): Option<JackKeyword> {
    FindKeyword(lexeme, Members)
  }

  /** A lexeme names keyword `k` exactly when it is `k`'s spelling; the comparison is
      case-sensitive, so `Class` is no keyword. */
  lemma LookupKeywordIff(lexeme: string, k: JackKeyword)
    ensures LookupKeyword(lexeme) == Some(k) <==> lexeme == Spelling(k)
  {
    LowerNameIsSpelling(k);
    MembersComplete(k);
    var r := LookupKeyword(lexeme);
    if r.Some? {
      LowerNameIsSpelling(r.value);
      if lexeme == Spelling(k) {
        SpellingInjective(r.value, k);
      }
    }
  }

  /** A lexeme that spells no keyword gives `None`. */
  lemma LookupKeywordNone(lexeme: string)
    ensures LookupKeyword(lexeme) == None <==> forall k: JackKeyword :: lexeme != Spelling(k)
  {
    forall k: JackKeyword
      ensures LookupKeyword(lexeme) == Some(k) <==> lexeme == Spelling(k)
    {
      LookupKeywordIff(lexeme, k);
    }
  }

  /** The kind of a word token: the keyword, or `None` for an ordinary identifier. */
  function WordKind(lexeme: string): Kind {
    match LookupKeyword(lexeme)
    case Some(k) => Kw(k)
    case None => NoKind
  }

  /**
   * What one call of `_lex` returns when the current character is at index `c` (`|s|` at
   * the end), and the index of the current character afterwards. A comment yields no token.
   */
  function LexToken(s: string, c: nat): (r: (Option<Token>, nat))
    requires c <= |s|
    ensures c <= r.1 <= |s|
  {
    var b := ScanWhile(s, c, IsBlank);
    if b == |s| then (Some(Token(Tok(JackToken.EOF), None)), b)
    else if IsWordStart(s[b]) then
      var e := ScanWhile(s, b + 1, IsWordChar);
      (Some(Token(WordKind(s[b..e]), Some(s[b..e]))), e)
    else if IsDigitChar(s[b]) then
      var e := ScanWhile(s, b + 1, IsDigitChar);
      (Some(Token(Tok(INT_CONST), Some(s[b..e]))), e)
    else if s[b] == '/' && b + 1 < |s| && s[b + 1] == '/' then (None, NextLine(s, b + 2))
    else if s[b] == '/' then (Some(Token(Tok(ERROR), Some("/"))), b + 1)
    else (Some(Token(Tok(ERROR), Some([s[b]]))), b)
  }

  lemma LexTokenAdvances(s: string, c: nat)
    requires c <= |s|
    ensures var r := LexToken(s, c);
      r.0 == None || (r.0.value.kind != Tok(JackToken.EOF) && r.0.value.kind != Tok(ERROR)) ==> c < r.1
  {
  }

  /** The tokens of an `analyze` run from index `c`, and the ERROR token that stops it, if any. */
  datatype Scanned = Scanned(tokens: seq<Token>, failure: Option<Token>)

  function Scan(s: string, c: nat): (r: Scanned)
    requires c <= |s|
    decreases |s| - c
  {
    var (t, d) := LexToken(s, c);
    LexTokenAdvances(s, c);
    if t.None? then Scan(s, d)
    else if t.value.kind == Tok(ERROR) then Scanned([], t)
    else if t.value.kind == Tok(JackToken.EOF) then Scanned([t.value], None)
    else
      var rest := Scan(s, d);
      Scanned([t.value] + rest.tokens, rest.failure)
  }

  /** One step of `analyze`, with the token and the next position named. */
  lemma ScanStep(s: string, c: nat, t: Option<Token>, d: nat)
    requires c <= |s| && (t, d) == LexToken(s, c)
    ensures d <= |s|
    ensures t.None? ==> c < d && Scan(s, c) == Scan(s, d)
    ensures t.Some? && t.value.kind == Tok(ERROR) ==> Scan(s, c) == Scanned([], t)
    ensures t.Some? && t.value.kind == Tok(JackToken.EOF) ==> Scan(s, c) == Scanned([t.value], None)
    ensures t.Some? && t.value.kind != Tok(ERROR) && t.value.kind != Tok(JackToken.EOF) ==>
      c < d && Scan(s, c) == Scanned([t.value] + Scan(s, d).tokens, Scan(s, d).failure)
  {
    LexTokenAdvances(s, c);
  }

  /** The kinds a scan can hold: a keyword or `None` for words, INT_CONST for numbers, and
      EOF; never SYMBOL, IDENTIFIER, KEYWORD, STRING_CONST or ERROR. */
  predicate ProducibleKind(k: Kind) {
    k.Kw? || k == NoKind || k == Tok(INT_CONST) || k == Tok(JackToken.EOF)
  }

  /** Words are maximal runs of letters, `_` and digits not starting with a digit, and are
      given the kind of their keyword lookup; numbers are maximal digit runs. */
  lemma LexTokenMaximal(s: string, c: nat)
    requires c <= |s|
    ensures var (t, d) := LexToken(s, c);
      var b := ScanWhile(s, c, IsBlank);
      (t.Some? && (t.value.kind.Kw? || t.value.kind == NoKind) ==>
        b < d && t.value.lexeme == Some(s[b..d]) && IsWordStart(s[b])
        && (forall k | b < k < d :: IsWordChar(s[k]))
        && t.value.kind == WordKind(s[b..d]) && (d == |s| || !IsWordChar(s[d])))
      && (t.Some? && t.value.kind == Tok(INT_CONST) ==>
        b < d && t.value.lexeme == Some(s[b..d]) && (forall k | b <= k < d :: IsDigit(s[k]))
        && (d == |s| || !IsDigit(s[d])))
  {
  }

  /** Every token of a scan has a producible kind. */
  lemma {:induction false} ScanKinds(s: string, c: nat)
    requires c <= |s|
    ensures forall i | 0 <= i < |Scan(s, c).tokens| :: ProducibleKind(Scan(s, c).tokens[i].kind)
    decreases |s| - c
  {
    var (t, d) := LexToken(s, c);
    ScanStep(s, c, t, d);
    if t.None? || (t.value.kind != Tok(ERROR) && t.value.kind != Tok(JackToken.EOF)) {
      ScanKinds(s, d);
    }
  }

  /** The only EOF in a scan is its last token. */
  lemma {:induction false} ScanEofIsLast(s: string, c: nat)
    requires c <= |s|
    ensures forall i | 0 <= i < |Scan(s, c).tokens| - 1 :: Scan(s, c).tokens[i].kind != Tok(JackToken.EOF)
    decreases |s| - c
  {
    var (t, d) := LexToken(s, c);
    ScanStep(s, c, t, d);
    if t.None? {
      ScanEofIsLast(s, d);
    } else if t.value.kind != Tok(ERROR) && t.value.kind != Tok(JackToken.EOF) {
      ScanEofIsLast(s, d);
      ConsNoEarlyEof(t.value, Scan(s, d).tokens, Scan(s, c).tokens);
    }
  }

  /** A token other than EOF in front of tokens whose only EOF is last. */
  lemma ConsNoEarlyEof(x: Token, rest: seq<Token>, r: seq<Token>)
    requires r == [x] + rest && x.kind != Tok(JackToken.EOF)
    requires forall i | 0 <= i < |rest| - 1 :: rest[i].kind != Tok(JackToken.EOF)
    ensures forall i | 0 <= i < |r| - 1 :: r[i].kind != Tok(JackToken.EOF)
  {
    assert forall i | 1 <= i < |r| :: r[i] == rest[i - 1];
  }

  /** A scan stops on an ERROR token exactly when it does not end with EOF. */
  lemma {:induction false} ScanFailsWithoutEof(s: string, c: nat)
    requires c <= |s|
    ensures var r := Scan(s, c);
      (r.failure.None? <==> |r.tokens| > 0 && r.tokens[|r.tokens| - 1].kind == Tok(JackToken.EOF))
      && (r.failure.Some? ==> r.failure.value.kind == Tok(ERROR))
    decreases |s| - c
  {
    var (t, d) := LexToken(s, c);
    ScanStep(s, c, t, d);
    if t.None? {
      ScanFailsWithoutEof(s, d);
    } else if t.value.kind != Tok(ERROR) && t.value.kind != Tok(JackToken.EOF) {
      ScanFailsWithoutEof(s, d);
      ConsKeepsEnd(t.value, Scan(s, d).tokens, Scan(s, c).tokens);
    }
  }

  /** A token in front keeps the last token, if the rest has one. */
  lemma ConsKeepsEnd(x: Token, rest: seq<Token>, r: seq<Token>)
    requires r == [x] + rest
    ensures |r| > 0
    ensures rest != [] ==> r[|r| - 1] == rest[|rest| - 1]
    ensures rest == [] ==> r[|r| - 1] == x
  {
  }

  /** After a successful `analyze` the tokens end with their only EOF, and no token is of
      a kind other than a keyword, `None`, INT_CONST or EOF. */
  lemma ScanSucceeds(s: string)
    requires Scan(s, 0).failure.None?
    ensures var r := Scan(s, 0).tokens;
      |r| > 0 && r[|r| - 1].kind == Tok(JackToken.EOF)
      && (forall i | 0 <= i < |r| - 1 :: r[i].kind != Tok(JackToken.EOF))
      && (forall i | 0 <= i < |r| :: ProducibleKind(r[i].kind))
  {
    ScanKinds(s, 0);
    ScanEofIsLast(s, 0);
    ScanFailsWithoutEof(s, 0);
  }

  /** A symbol character that does not open a comment stops `analyze` with an ERROR token
      holding that character: no Jack program with symbols can be tokenized. */
  lemma SymbolFails(s: string, c: nat)
    requires c <= |s|
    requires var b := ScanWhile(s, c, IsBlank);
      b < |s| && s[b] in Symbols && !(s[b] == '/' && b + 1 < |s| && s[b + 1] == '/')
    ensures var b := ScanWhile(s, c, IsBlank);
      Scan(s, c) == Scanned([], Some(Token(Tok(ERROR), Some([s[b]]))))
  {
    var b := ScanWhile(s, c, IsBlank);
    assert ClassOf(s[b]) == OTHER;
    if s[b] == '/' {
      assert [s[b]] == "/";
    }
  }

  /** What one `_lex` does to the split of a whole scan `all` into the tokens `done` so far
      and the scan `before` from the cursor; `after` is the scan from the new cursor. */
  lemma TurnShift(all: Scanned, done: seq<Token>, before: Scanned, t: Option<Token>, after: Scanned)
    requires all.tokens == done + before.tokens && all.failure == before.failure
    requires t.None? ==> before == after
    requires t.Some? && t.value.kind == Tok(ERROR) ==> before == Scanned([], t)
    requires t.Some? && t.value.kind == Tok(JackToken.EOF) ==> before == Scanned([t.value], None)
    requires t.Some? && t.value.kind != Tok(ERROR) && t.value.kind != Tok(JackToken.EOF) ==>
      before == Scanned([t.value] + after.tokens, after.failure)
    ensures t.None? ==> all.tokens == done + after.tokens && all.failure == after.failure
    ensures t.Some? && t.value.kind == Tok(ERROR) ==> all.tokens == done && all.failure == t
    ensures t.Some? && t.value.kind == Tok(JackToken.EOF) ==> all.tokens == done + [t.value] && all.failure.None?
    ensures t.Some? && t.value.kind != Tok(ERROR) && t.value.kind != Tok(JackToken.EOF) ==>
      all.tokens == (done + [t.value]) + after.tokens && all.failure == after.failure
  {
    if t.Some? && t.value.kind != Tok(ERROR) && t.value.kind != Tok(JackToken.EOF) {
      assert done + ([t.value] + after.tokens) == (done + [t.value]) + after.tokens;
    } else if t.Some? && t.value.kind == Tok(ERROR) {
      assert done + [] == done;
    }
  }

  /** The Jack tokenizer. `cursor` is the index of the current character `nextChar` (or
      `|source|` at the end); the generator's position `pos` is one past it. */
  class JackTokenizer {
    const source: string
    var pos: nat
    var skipLine: bool
    var nextChar: Option<char>
    var charClass: CharClass
    var currTokenType: JackToken
    var currToken: Option<JackKeyword>
    var currLexeme: Option<string>
    var tokens: seq<Token>
    ghost var cursor: nat

    /** `nextChar` and `charClass` describe the character at `cursor`. */
    ghost predicate Current()
      reads this
    {
      pos <= |source| && cursor <= |source| && !skipLine
      && (if cursor < |source| then
            pos == cursor + 1 && nextChar == Some(source[cursor]) && charClass == ClassOf(source[cursor])
          else pos == |source| && nextChar == None && charClass == CharClass.EOF)
    }

    /** The source leaves the character class unset until the first `_get_char`; here it
        starts as EOF. */
    constructor (text: string)
      ensures source == text && pos == 0 && !skipLine && nextChar == None
      ensures currTokenType == JackToken.EOF && currToken == None && currLexeme == None && tokens == []
    {
      source := text;
      pos := 0;
      skipLine := false;
      nextChar := None;
      charClass := CharClass.EOF;
      currTokenType := JackToken.EOF;
      currToken := None;
      currLexeme := None;
      tokens := [];
      cursor := 0;
    }

    /** `curr_keyword`. */
    function CurrKeyword(): (r: Option<JackKeyword>)
      reads this
      ensures currTokenType != KEYWORD ==> r == None
      ensures currTokenType == KEYWORD ==> r == currToken
    {
      if currTokenType == KEYWORD then currToken else None
    }

    /** `curr_symbol`. */
    function CurrSymbol(): (r: Option<string>)
      reads this
      ensures currTokenType != SYMBOL ==> r == None
      ensures currTokenType == SYMBOL ==> r == currLexeme
    {
      if currTokenType == SYMBOL then currLexeme else None
    }

    /** `curr_identifier`. */
    function CurrIdentifier(): (r: Option<string>)
      reads this
      ensures currTokenType != IDENTIFIER ==> r == None
      ensures currTokenType == IDENTIFIER ==> r == currLexeme
    {
      if currTokenType == IDENTIFIER then currLexeme else None
    }

    /** `curr_int_val`: the lexeme itself, not converted to a number. */
    function CurrIntVal(): (r: Option<string>)
      reads this
      ensures currTokenType != INT_CONST ==> r == None
      ensures currTokenType == INT_CONST ==> r == currLexeme
    {
      if currTokenType == INT_CONST then currLexeme else None
    }

    /** `curr_string_val`. */
    function CurrStringVal(): (r: Option<string>)
      reads this
      ensures currTokenType != STRING_CONST ==> r == None
      ensures currTokenType == STRING_CONST ==> r == currLexeme
    {
      if currTokenType == STRING_CONST then currLexeme else None
    }

    /** `_get_char`: the generator first drops the rest of the line when asked to. */
    method GetChar()
      requires pos <= |source|
      modifies this`pos, this`skipLine, this`nextChar, this`charClass, this`cursor
      ensures Current()
      ensures cursor == if old(skipLine) then NextLine(source, old(pos)) else old(pos)
    {
      if skipLine {
        pos := NextLine(source, pos);
        skipLine := false;
      }
      if pos < |source| {
        var c := source[pos];
        nextChar := Some(c);
        if IsLetter(c) || c == '_' {
          charClass := LETTER;
        } else if IsDigit(c) {
          charClass := DIGIT;
        } else if IsSpace(c) {
          charClass := WHITESPACE;
        } else {
          charClass := OTHER;
        }
        cursor := pos;
        pos := pos + 1;
      } else {
        nextChar := None;
        charClass := CharClass.EOF;
        cursor := pos;
      }
    }

    /** `_get_non_blank`: skips to the first character that is not a blank. */
    method GetNonBlank()
      requires Current()
      modifies this`pos, this`skipLine, this`nextChar, this`charClass, this`cursor
      ensures Current()
      ensures cursor == ScanWhile(source, old(cursor), IsBlank)
    {
      while charClass == WHITESPACE
        invariant Current() && old(cursor) <= cursor
        invariant forall k | old(cursor) <= k < cursor :: IsBlank(source[k])
        decreases |source| - cursor
      {
        GetChar();
      }
      ScanWhileUnique(source, old(cursor), cursor, IsBlank);
    }

    /** The identifier loop of `_lex`. */
    method LexWord() returns (lexeme: string)
      requires Current() && cursor < |source| && IsWordStart(source[cursor])
      modifies this`pos, this`skipLine, this`nextChar, this`charClass, this`cursor
      ensures Current() && old(cursor) < cursor
      ensures cursor == ScanWhile(source, old(cursor) + 1, IsWordChar)
      ensures lexeme == source[old(cursor)..cursor]
    {
      ghost var b := cursor;
      lexeme := [nextChar.value];
      GetChar();
      while charClass == LETTER || charClass == DIGIT
        invariant Current() && b < cursor && lexeme == source[b..cursor]
        invariant forall k | b + 1 <= k < cursor :: IsWordChar(source[k])
        decreases |source| - cursor
      {
        SliceGrows(source, b, cursor);
        lexeme := lexeme + [nextChar.value];
        GetChar();
      }
      ScanWhileUnique(source, b + 1, cursor, IsWordChar);
    }

    /** The integer loop of `_lex`. */
    method LexNumber() returns (lexeme: string)
      requires Current() && cursor < |source| && IsDigitChar(source[cursor])
      modifies this`pos, this`skipLine, this`nextChar, this`charClass, this`cursor
      ensures Current() && old(cursor) < cursor
      ensures cursor == ScanWhile(source, old(cursor) + 1, IsDigitChar)
      ensures lexeme == source[old(cursor)..cursor]
    {
      ghost var b := cursor;
      lexeme := [nextChar.value];
      GetChar();
      while charClass == DIGIT
        invariant Current() && b < cursor && lexeme == source[b..cursor]
        invariant forall k | b + 1 <= k < cursor :: IsDigitChar(source[k])
        decreases |source| - cursor
      {
        SliceGrows(source, b, cursor);
        lexeme := lexeme + [nextChar.value];
        GetChar();
      }
      ScanWhileUnique(source, b + 1, cursor, IsDigitChar);
    }

    /** The comment and error cases of `_lex`: the current character is of class OTHER. */
    method LexOther() returns (t: Option<Token>)
      requires Current() && cursor < |source| && ClassOf(source[cursor]) == OTHER
      modifies this`pos, this`skipLine, this`nextChar, this`charClass, this`cursor
      ensures Current()
      ensures var b := old(cursor);
        if source[b] == '/' && b + 1 < |source| && source[b + 1] == '/' then
          t == None && cursor == NextLine(source, b + 2)
        else if source[b] == '/' then t == Some(Token(Tok(ERROR), Some("/"))) && cursor == b + 1
        else t == Some(Token(Tok(ERROR), Some([source[b]]))) && cursor == b
    {
      var lexeme := [nextChar.value];
      if nextChar == Some('/') {
        GetChar();
        if nextChar == Some('/') {
          skipLine := true;
          GetChar();
          t := None;
        } else {
          t := Some(Token(Tok(ERROR), Some(lexeme)));
        }
      } else {
        t := Some(Token(Tok(ERROR), Some(lexeme)));
      }
    }

    /** `_lex`: one token, or `None` after a comment. */
    method Lex() returns (t: Option<Token>)
      requires Current()
      modifies this`pos, this`skipLine, this`nextChar, this`charClass, this`cursor
      ensures Current()
      ensures (t, cursor) == LexToken(source, old(cursor))
    {
      GetNonBlank();
      if charClass == LETTER {
        var lexeme := LexWord();
        var k := LookupKeyword(lexeme);
        t := Some(Token(if k.Some? then Kw(k.value) else NoKind, Some(lexeme)));
      } else if charClass == DIGIT {
        var lexeme := LexNumber();
        t := Some(Token(Tok(INT_CONST), Some(lexeme)));
      } else if charClass == OTHER {
        t := LexOther();
      } else if charClass == CharClass.EOF {
        t := Some(Token(Tok(JackToken.EOF), None));
      } else {
        assert false;
      }
    }

    /** `_lex`, described by what it means for the rest of the run. */
    method LexStep() returns (t: Option<Token>)
      requires Current()
      modifies this`pos, this`skipLine, this`nextChar, this`charClass, this`cursor
      ensures Current()
      ensures t.None? ==> old(cursor) < cursor && Scan(source, old(cursor)) == Scan(source, cursor)
      ensures t.Some? && t.value.kind == Tok(ERROR) ==> Scan(source, old(cursor)) == Scanned([], t)
      ensures t.Some? && t.value.kind == Tok(JackToken.EOF) ==> Scan(source, old(cursor)) == Scanned([t.value], None)
      ensures t.Some? && t.value.kind != Tok(ERROR) && t.value.kind != Tok(JackToken.EOF) ==>
        old(cursor) < cursor
        && Scan(source, old(cursor)) == Scanned([t.value] + Scan(source, cursor).tokens, Scan(source, cursor).failure)
    {
      ghost var c := cursor;
      t := Lex();
      ScanStep(source, c, t, cursor);
    }

    /** One turn of `analyze`'s loop: `_lex`, then the token is appended unless a comment
        gave none; the loop stops after EOF, and raises on ERROR with its lexeme. `done` are
        the tokens appended so far and `all` is what the whole run appends. */
    method AnalyzeTurn(ghost base: seq<Token>, ghost all: Scanned, ghost done: seq<Token>)
      returns (stop: bool, o: Outcome<Option<string>>, ghost done': seq<Token>)
      requires Current() && tokens == base + done
      requires all.tokens == done + Scan(source, cursor).tokens && all.failure == Scan(source, cursor).failure
      modifies this`pos, this`skipLine, this`nextChar, this`charClass, this`cursor, this`tokens
      ensures Current() && tokens == base + done'
      ensures stop ==> done' == all.tokens && o == (if all.failure.None? then Pass else Fail(all.failure.value.lexeme))
      ensures !stop ==>
        old(cursor) < cursor
        && all.tokens == done' + Scan(source, cursor).tokens && all.failure == Scan(source, cursor).failure
    {
      ghost var before := Scan(source, cursor);
      var t := LexStep();
      ghost var after := Scan(source, cursor);
      TurnShift(all, done, before, t, after);
      done' := done;
      if t.None? {
        return false, Pass, done';
      }
      if t.value.kind == Tok(ERROR) {
        return true, Fail(t.value.lexeme), done';
      }
      tokens := tokens + [t.value];
      done' := done + [t.value];
      o := Pass;
      stop := t.value.kind == Tok(JackToken.EOF);
    }

    /** `analyze`: tokenizes the whole text into `tokens`; an ERROR token raises, carrying
        its lexeme. */
    method Analyze() returns (o: Outcome<Option<string>>)
      requires pos == 0 && !skipLine
      modifies this`pos, this`skipLine, this`nextChar, this`charClass, this`cursor, this`tokens
      ensures var r := Scan(source, 0);
        tokens == old(tokens) + r.tokens
        && o == (if r.failure.None? then Pass else Fail(r.failure.value.lexeme))
    {
      GetChar();
      ghost var all := Scan(source, 0);
      ghost var done: seq<Token> := [];
      assert all.tokens == done + all.tokens;
      while true
        invariant Current() && tokens == old(tokens) + done
        invariant all.tokens == done + Scan(source, cursor).tokens && all.failure == Scan(source, cursor).failure
        decreases |source| - cursor
      {
        var stop;
        stop, o, done := AnalyzeTurn(old(tokens), all, done);
        if stop {
          return;
        }
      }
    }

    /** `advance`: the front token, which moves to the back; `None` when empty. */
    method Advance() returns (t: Option<Token>)
      modifies this`tokens
      ensures tokens == RotateOnce(old(tokens))
      ensures t == if old(tokens) == [] then None else Some(old(tokens)[0])
    {
      if tokens == [] {
        return None;
      }
      t := Some(tokens[0]);
      tokens := tokens[1..] + [tokens[0]];
    }

    /** `peek_next_token`: the front token, if any. */
    function PeekNextToken(): (t: Option<Token>)
      reads this
      ensures t.Some? <==> tokens != []
      ensures t.Some? ==> t.value == tokens[0]
    {
      if tokens == [] then None else Some(tokens[0])
    }

    /** `has_more_tokens`: the queue is non-empty and its front is not EOF. */
    function HasMoreTokens(): (b: bool)
      reads this
      ensures b <==> tokens != [] && tokens[0].kind != Tok(JackToken.EOF)
    {
      |tokens| > 0 && PeekNextToken().value.kind != Tok(JackToken.EOF)
    }
  }
}
