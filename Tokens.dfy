/** The token data model: kinds, the keyword table and the display form. */
module Tokens {
  import opened CharClass

  datatype TokenType = Identify | Keyword | UnsignedNumber | Delimiter | Unknown

  /** A token is a kind together with its content: the lexeme for identifiers
      and numbers, a canonical name for keywords and delimiters, empty for
      unknown characters. */
  datatype Token = Token(tokenType: TokenType, content: string)

  function KeywordToken(value: string): Token {
    Token(Keyword, value)
  }

  function IdentifyToken(value: string): Token {
    Token(Identify, value)
  }

  function UnsignedNumberToken(value: string): Token {
    Token(UnsignedNumber, value)
  }

  function DelimiterToken(value: string): Token {
    Token(Delimiter, value)
  }

  /** The exact, upper-case spellings that are reserved. */
  const ReservedWords: set<string> := {"BEGIN", "END", "FOR", "IF", "THEN", "ELSE"}

  /** The canonical names a keyword token can carry. */
  const KeywordNames: set<string> := {"Begin", "End", "For", "If", "Then", "Else"}

  /** The canonical names a delimiter token can carry. */
  const DelimiterNames: set<string> :=
    {"Colon", "Assign", "Plus", "Star", "Comma", "LParenthesis", "RParenthesis"}

  function LowerChar(c: char): char {
    if 'A' <= c <= 'Z' then (c as int - 'A' as int + 'a' as int) as char else c
  }

  /** ASCII lower-casing of a whole string. */
  function Lower(s: string): (r: string)
    ensures |r| == |s|
    ensures forall i :: 0 <= i < |s| ==> r[i] == LowerChar(s[i])
  {
    if s == [] then [] else [LowerChar(s[0])] + Lower(s[1..])
  }

  /** Classifies an alphanumeric run: an exact reserved spelling becomes a
      keyword whose name is that spelling with all letters after the first
      lower-cased; anything else is an identifier carrying the text unchanged. */
  function KeywordOrIdentify(value: string): (r: Token)
    ensures r.tokenType == Keyword <==> value in ReservedWords
    ensures r.tokenType != Keyword ==> r == IdentifyToken(value)
    ensures r.tokenType == Keyword ==>
      |value| > 0 && r.content == [value[0]] + Lower(value[1..]) && r.content in KeywordNames
  {
    match value
    case "BEGIN" => KeywordToken("Begin")
    case "END" => KeywordToken("End")
    case "FOR" => KeywordToken("For")
    case "IF" => KeywordToken("If")
    case "THEN" => KeywordToken("Then")
    case "ELSE" => KeywordToken("Else")
    case _ => IdentifyToken(value)
  }

  /** Keyword matching is case-sensitive: a run holding any lower-case letter
      is an identifier, whatever it spells. */
  lemma LowerCaseLetterMakesIdentifier(value: string, i: nat)
    requires i < |value| && 'a' <= value[i] <= 'z'
    ensures KeywordOrIdentify(value) == IdentifyToken(value)
  {
    if value in ReservedWords {
      assert false;
    }
  }

  /** The examples of exact matching: the reserved spelling, the lower-case
      spelling and a longer run that starts with a reserved word. */
  lemma KeywordExamples()
    ensures KeywordOrIdentify("BEGIN") == Token(Keyword, "Begin")
    ensures KeywordOrIdentify("begin") == Token(Identify, "begin")
    ensures KeywordOrIdentify("BEGINX") == Token(Identify, "BEGINX")
    ensures KeywordOrIdentify("ELSE") == Token(Keyword, "Else")
  {
  }

  /** What the scanner can produce, token kind by token kind. */
  predicate WellFormed(t: Token) {
    match t.tokenType
    case Identify =>
      && |t.content| > 0
      && IsAlphabetic(t.content[0])
      && (forall i :: 0 <= i < |t.content| ==> IsAlphanumeric(t.content[i]))
      && t.content !in ReservedWords
    case Keyword => t.content in KeywordNames
    case UnsignedNumber =>
      && |t.content| > 0
      && (forall i :: 0 <= i < |t.content| ==> IsAsciiDigit(t.content[i]))
    case Delimiter => t.content in DelimiterNames
    case Unknown => t.content == ""
  }

  /** The display form of a token. */
  function ToString(t: Token): string {
    match t.tokenType
    case Identify => "Ident(" + t.content + ")"
    case Keyword => t.content
    case UnsignedNumber => "Int(" + t.content + ")"
    case Delimiter => t.content
    case Unknown => "Unknown"
  }

  lemma WrappedContentInjective(prefix: string, x: string, y: string)
    requires prefix + x + ")" == prefix + y + ")"
    ensures x == y
  {
    var sx, sy := prefix + x + ")", prefix + y + ")";
    assert |x| == |y|;
    assert x == sx[|prefix|..|prefix| + |x|];
    assert y == sy[|prefix|..|prefix| + |y|];
  }

  /** The first two characters of a display tell identifiers and numbers
      apart from each other and from every fixed name. */
  lemma DisplayOpening(t: Token)
    requires WellFormed(t)
    ensures |ToString(t)| >= 2
    ensures t.tokenType == Identify <==> (ToString(t)[0] == 'I' && ToString(t)[1] == 'd')
    ensures t.tokenType == UnsignedNumber <==> (ToString(t)[0] == 'I' && ToString(t)[1] == 'n')
  {
    var s := ToString(t);
    match t.tokenType {
      case Identify =>
      case UnsignedNumber =>
      case Keyword =>
        assert s == "Begin" || s == "End" || s == "For" || s == "If" || s == "Then" || s == "Else";
      case Delimiter =>
        assert s == "Colon" || s == "Assign" || s == "Plus" || s == "Star" ||
               s == "Comma" || s == "LParenthesis" || s == "RParenthesis";
      case Unknown =>
    }
  }

  /** The display form loses nothing: two tokens the scanner can produce that
      render alike are the same token, so a reader of the printed lines can
      tell every token apart, the unknown one included. (A caller that stops
      on the unknown token tests its kind, not its display.) */
  lemma DisplayInjective(a: Token, b: Token)
    requires WellFormed(a) && WellFormed(b)
    requires ToString(a) == ToString(b)
    ensures a == b
  {
    if a.tokenType == Identify && b.tokenType == Identify {
      WrappedContentInjective("Ident(", a.content, b.content);
    } else if a.tokenType == UnsignedNumber && b.tokenType == UnsignedNumber {
      WrappedContentInjective("Int(", a.content, b.content);
    } else {
      DisplayOpening(a);
      DisplayOpening(b);
    }
  }
}
