/**
 * The Jack analyzer's token serialiser (10/JackAnalyzer.py): one XML line per token, in the
 * format of the nand2tetris token files, and the name of the output file.
 */
module JackAnalyzer {
  import opened Wrappers
  import opened Text
  import opened JackTokens
  import opened JackLexer

  /** A token's lexeme as `_gen_xml` may meet it: a string, a keyword member (what the
      KEYWORD branch expects), or `None`. */
  datatype Lexeme = Str(s: string) | Key(k: JackKeyword) | Absent

  /** The token `_gen_xml` takes: the kind slot holds a JackToken, a JackKeyword or `None`. */
  datatype XmlToken = XmlToken(kind: Kind, lexeme: Lexeme)

  /** `.name` on a value that is not a keyword member raises AttributeError; any other kind
      raises "Invalid or unknown token!". */
  datatype XmlError = AttributeError | UnknownToken

  /** Python's `str()` of a lexeme, as `format` uses it. */
  function Show(l: Lexeme): string {
    match l
    case Str(s) => s
    case Key(k) => "JackKeyword." + Name(k)
    case Absent => "None"
  }

  /** The symbol values: the four markup characters become the predefined entities of
      section 4.6 of XML 1.0; anything else is written as it is. */
  function SymbolValue(l: Lexeme): string {
    if l == Str("<") then "&lt;"
    else if l == Str(">") then "&gt;"
    else if l == Str("\"") then "&quot;"
    else if l == Str("&") then "&amp;"
    else Show(l)
  }

  function Element(tag: string, value: string): string {
    "<" + tag + "> " + value + " </" + tag + ">\n"
  }

  /** `_gen_xml`. */
  function GenXml(t: XmlToken): Result<string, XmlError> {
    match t.kind
    case Tok(KEYWORD) =>
      if t.lexeme.Key? then Ok(Element("keyword", Lower(Name(t.lexeme.k)))) else Err(AttributeError)
    case Tok(SYMBOL) => Ok(Element("symbol", SymbolValue(t.lexeme)))
    case Tok(IDENTIFIER) => Ok(Element("identifier", Show(t.lexeme)))
    case Tok(INT_CONST) => Ok(Element("integerConstant", Show(t.lexeme)))
    case Tok(STRING_CONST) => Ok(Element("stringConstant", Show(t.lexeme)))
    case _ => Err(UnknownToken)
  }

  /** The tag for each kind that has one. */
  function Tag(k: JackToken): Option<string> {
    match k
    case KEYWORD => Some("keyword")
    case SYMBOL => Some("symbol")
    case IDENTIFIER => Some("identifier")
    case INT_CONST => Some("integerConstant")
    case STRING_CONST => Some("stringConstant")
    case _ => None
  }

  /** `_gen_xml` gives a line exactly for the five serialisable kinds (a keyword needing a
      keyword member as its lexeme), and that line is the element of the kind's tag. */
  lemma GenXmlSucceeds(t: XmlToken)
    ensures GenXml(t).Ok? <==>
      t.kind.Tok? && Tag(t.kind.token).Some? && (t.kind.token == KEYWORD ==> t.lexeme.Key?)
    ensures GenXml(t).Ok? ==> exists v :: GenXml(t).value == Element(Tag(t.kind.token).value, v)
    ensures GenXml(t) == Err(AttributeError) <==> t.kind == Tok(KEYWORD) && !t.lexeme.Key?
  {
  }

  /** EOF and ERROR tokens, keyword members in the kind slot and `None` all raise. */
  lemma GenXmlRejects(t: XmlToken)
    requires t.kind == Tok(JackToken.EOF) || t.kind == Tok(ERROR) || t.kind == NoKind || t.kind.Kw?
    ensures GenXml(t) == Err(UnknownToken)
  {
  }

  /** A keyword is written in its Jack spelling. */
  lemma KeywordLine(k: JackKeyword)
    ensures GenXml(XmlToken(Tok(KEYWORD), Key(k))) == Ok(Element("keyword", Spelling(k)))
  {
    LowerNameIsSpelling(k);
  }

  /** Identifiers and constants are written without escaping. */
  lemma PlainLine(k: JackToken, s: string)
    requires k == IDENTIFIER || k == INT_CONST || k == STRING_CONST
    ensures GenXml(XmlToken(Tok(k), Str(s))) == Ok(Element(Tag(k).value, s))
  {
  }

  predicate IsMarkup(c: char) { c == '<' || c == '>' || c == '"' || c == '&' }

  /** Reading the predefined entities back. */
  function Unescape(v: string): string
    decreases |v|
  {
    if |v| >= 4 && v[..4] == "&lt;" then "<" + Unescape(v[4..])
    else if |v| >= 4 && v[..4] == "&gt;" then ">" + Unescape(v[4..])
    else if |v| >= 6 && v[..6] == "&quot;" then "\"" + Unescape(v[6..])
    else if |v| >= 5 && v[..5] == "&amp;" then "&" + Unescape(v[5..])
    else if v == [] then []
    else [v[0]] + Unescape(v[1..])
  }

  /** A one-character symbol is written without raw markup characters other than the `&`
      that opens an entity, and reading the entities back gives the symbol. */
  lemma SymbolRoundTrip(c: char)
    ensures var v := SymbolValue(Str([c]));
      Unescape(v) == [c]
      && (forall i | 0 <= i < |v| :: v[i] != '<' && v[i] != '>' && v[i] != '"')
      && (IsMarkup(c) <==> v[0] == '&')
  {
    var v := SymbolValue(Str([c]));
    if c == '<' {
      assert v == "&lt;" && v[..4] == "&lt;" && v[4..] == [];
    } else if c == '>' {
      assert v == "&gt;" && v[..4] == "&gt;" && v[4..] == [];
    } else if c == '"' {
      assert v == "&quot;" && v[..4] == "&quo" && v[..6] == "&quot;" && v[6..] == [];
    } else if c == '&' {
      assert v == "&amp;" && v[..4] == "&amp" && v[..5] == "&amp;" && v[5..] == [];
    } else {
      assert v == [c] && v[1..] == [];
      assert Unescape(v[1..]) == [];
    }
  }

  /** The escape is only for whole lexemes: a longer symbol lexeme passes through as it is. */
  lemma LongSymbolUnescaped(s: string)
    requires |s| != 1
    ensures GenXml(XmlToken(Tok(SYMBOL), Str(s))) == Ok(Element("symbol", s))
  {
  }

  /** The output name: the input without its last four characters, followed by `xml`. */
  function OutputName(infile: string): string {
    (if |infile| >= 4 then infile[..|infile| - 4] else "") + "xml"
  }

  /** Any four-letter extension after the dot, `.jack` or `.JACK`, is replaced by `.xml`. */
  lemma OutputNameReplacesExtension(base: string, ext: string)
    requires |ext| == 4
    ensures OutputName(base + "." + ext) == base + ".xml"
  {
    var f := base + "." + ext;
    assert f[..|f| - 4] == base + ".";
  }
}
