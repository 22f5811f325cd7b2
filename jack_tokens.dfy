/** The Jack token kinds (10/JackToken.py) and keywords (10/JackKeyword.py). */
module JackTokens {
  import opened Text

  datatype JackToken = KEYWORD | SYMBOL | IDENTIFIER | INT_CONST | STRING_CONST | EOF | ERROR

  datatype JackKeyword =
    | CLASS | METHOD | FUNCTION | CONSTRUCTOR | INT | BOOLEAN | CHAR | VOID | VAR | STATIC
    | FIELD | LET | DO | IF | ELSE | WHILE | RETURN | TRUE | FALSE | NULL | THIS

  /** The members of the enumeration in declaration order, as `JackKeyword.__members__` lists them. */
  const Members: seq<JackKeyword> := [
    CLASS, METHOD, FUNCTION, CONSTRUCTOR, INT, BOOLEAN, CHAR, VOID, VAR, STATIC,
    FIELD, LET, DO, IF, ELSE, WHILE, RETURN, TRUE, FALSE, NULL, THIS]

  lemma MembersComplete(k: JackKeyword)
    ensures k in Members
  {
  }

  /** A member's `name`. */
  function Name(k: JackKeyword): string {
    match k
    case CLASS => "CLASS"
    case METHOD => "METHOD"
    case FUNCTION => "FUNCTION"
    case CONSTRUCTOR => "CONSTRUCTOR"
    case INT => "INT"
    case BOOLEAN => "BOOLEAN"
    case CHAR => "CHAR"
    case VOID => "VOID"
    case VAR => "VAR"
    case STATIC => "STATIC"
    case FIELD => "FIELD"
    case LET => "LET"
    case DO => "DO"
    case IF => "IF"
    case ELSE => "ELSE"
    case WHILE => "WHILE"
    case RETURN => "RETURN"
    case TRUE => "TRUE"
    case FALSE => "FALSE"
    case NULL => "NULL"
    case THIS => "THIS"
  }

  /** How a keyword is written in Jack. */
  function Spelling(k: JackKeyword): string {
    match k
    case CLASS => "class"
    case METHOD => "method"
    case FUNCTION => "function"
    case CONSTRUCTOR => "constructor"
    case INT => "int"
    case BOOLEAN => "boolean"
    case CHAR => "char"
    case VOID => "void"
    case VAR => "var"
    case STATIC => "static"
    case FIELD => "field"
    case LET => "let"
    case DO => "do"
    case IF => "if"
    case ELSE => "else"
    case WHILE => "while"
    case RETURN => "return"
    case TRUE => "true"
    case FALSE => "false"
    case NULL => "null"
    case THIS => "this"
  }

  /** `w` is `n` lower-cased character by character. */
  lemma LowerWord(n: string, w: string)
    requires |n| == |w| && forall i | 0 <= i < |n| :: w[i] == LowerChar(n[i])
    ensures Lower(n) == w
  {
  }

  /** Lower-casing a member's name gives its Jack spelling. */
  lemma LowerNameIsSpelling(k: JackKeyword)
    ensures Lower(Name(k)) == Spelling(k)
  {
    if k == CLASS || k == CONSTRUCTOR || k == FUNCTION || k == METHOD || k == FIELD || k == STATIC || k == VAR {
      LowerDeclarationWords(k);
    } else if k == INT || k == CHAR || k == BOOLEAN || k == VOID {
      LowerTypeWords(k);
    } else if k == LET || k == DO || k == IF || k == ELSE || k == WHILE || k == RETURN {
      LowerStatementWords(k);
    } else {
      LowerConstantWords(k);
    }
  }

  /** The keywords for program structure. */
  lemma LowerDeclarationWords(k: JackKeyword)
    requires k == CLASS || k == CONSTRUCTOR || k == FUNCTION || k == METHOD || k == FIELD || k == STATIC || k == VAR
    ensures Lower(Name(k)) == Spelling(k)
  {
    match k
    case CLASS => LowerWord("CLASS", "class");
    case CONSTRUCTOR => LowerWord("CONSTRUCTOR", "constructor");
    case FUNCTION => LowerWord("FUNCTION", "function");
    case METHOD => LowerWord("METHOD", "method");
    case FIELD => LowerWord("FIELD", "field");
    case STATIC => LowerWord("STATIC", "static");
    case VAR => LowerWord("VAR", "var");
  }

  /** The keywords for types. */
  lemma LowerTypeWords(k: JackKeyword)
    requires k == INT || k == CHAR || k == BOOLEAN || k == VOID
    ensures Lower(Name(k)) == Spelling(k)
  {
    match k
    case INT => LowerWord("INT", "int");
    case CHAR => LowerWord("CHAR", "char");
    case BOOLEAN => LowerWord("BOOLEAN", "boolean");
    case VOID => LowerWord("VOID", "void");
  }

  /** The keywords for statements. */
  lemma LowerStatementWords(k: JackKeyword)
    requires k == LET || k == DO || k == IF || k == ELSE || k == WHILE || k == RETURN
    ensures Lower(Name(k)) == Spelling(k)
  {
    match k
    case LET => LowerWord("LET", "let");
    case DO => LowerWord("DO", "do");
    case IF => LowerWord("IF", "if");
    case ELSE => LowerWord("ELSE", "else");
    case WHILE => LowerWord("WHILE", "while");
    case RETURN => LowerWord("RETURN", "return");
  }

  /** The keywords for constants. */
  lemma LowerConstantWords(k: JackKeyword)
    requires k == TRUE || k == FALSE || k == NULL || k == THIS
    ensures Lower(Name(k)) == Spelling(k)
  {
    match k
    case TRUE => LowerWord("TRUE", "true");
    case FALSE => LowerWord("FALSE", "false");
    case NULL => LowerWord("NULL", "null");
    case THIS => LowerWord("THIS", "this");
  }

  /** Distinct keywords are spelled differently. */
  lemma SpellingInjective(j: JackKeyword, k: JackKeyword)
    requires Spelling(j) == Spelling(k)
    ensures j == k
  {
  }
}
