/** The lexer as the source runs it: an iterator object holding the input and
    a cursor, whose `Next` walks the characters with loops and a one-character
    unconsume, proved to do exactly what `Scanner.Step` describes. */
module Lexer {
  import opened CharClass
  import opened Tokens
  import opened Scanner

  class TokenIterator {
    /** The input, fixed when the iterator is built. */
    const chars: seq<char>
    /** The cursor: the index of the next character to read. */
    var curIndex: nat

    ghost predicate Valid()
      reads this
    {
      curIndex <= |chars|
    }

    /** Building the iterator over a text puts the cursor at its start. */
    constructor (content: string)
      ensures Valid()
      ensures chars == content && curIndex == 0
    {
      chars := content;
      curIndex := 0;
    }

    /** The loop shared by identifiers and numbers: `first`, just read, starts a
        run of characters satisfying `p`. The run is collected into a buffer;
        the character that ends it is read once more and then given back, so
        the cursor stops right after the run. */
    method TakeRun(first: char, p: char -> bool) returns (token: string)
      requires Valid() && 0 < curIndex && chars[curIndex - 1] == first && p(first)
      modifies this
      ensures Valid()
      ensures curIndex == RunEnd(chars, old(curIndex) - 1, p)
      ensures token == chars[old(curIndex) - 1..curIndex]
    {
      ghost var j := curIndex - 1;
      var ch := first;
      token := [];
      while p(ch)
        invariant j < curIndex <= |chars|
        invariant ch == chars[curIndex - 1]
        invariant token == chars[j..curIndex - 1]
        invariant forall k :: j <= k < curIndex - 1 ==> p(chars[k])
        decreases |chars| - curIndex
      {
        token := token + [ch];
        if curIndex == |chars| {
          RunEndUnique(chars, j, p, curIndex);
          return;
        } else {
          ch := chars[curIndex];
          curIndex := curIndex + 1;
        }
      }
      curIndex := curIndex - 1;
      RunEndUnique(chars, j, p, curIndex);
    }

    /** The next token, or None once only whitespace is left. The first
        non-whitespace character is read in the loop that skips whitespace, so
        it is already consumed when it is classified. */
    method Next() returns (r: Option<Token>)
      requires Valid()
      modifies this
      ensures Valid()
      ensures (r, curIndex) == Step(chars, old(curIndex))
    {
      ghost var pos := curIndex;
      var ch := ' ';
      while IsWhitespace(ch)
        invariant pos <= curIndex <= |chars|
        invariant IsWhitespace(ch) ==> SkipWhitespace(chars, pos) == SkipWhitespace(chars, curIndex)
        invariant !IsWhitespace(ch) ==>
          0 < curIndex && ch == chars[curIndex - 1] && SkipWhitespace(chars, pos) == curIndex - 1
        decreases |chars| - curIndex, if IsWhitespace(ch) then 1 else 0
      {
        if curIndex == |chars| {
          return None;
        } else {
          ch := chars[curIndex];
          curIndex := curIndex + 1;
        }
      }

      if IsAlphabetic(ch) {
        var token := TakeRun(ch, IsAlphanumeric);
        r := Some(KeywordOrIdentify(token));
      } else if IsAsciiDigit(ch) {
        var token := TakeRun(ch, IsAsciiDigit);
        r := Some(UnsignedNumberToken(token));
      } else if ch == ':' {
        if curIndex == |chars| {
          r := Some(DelimiterToken("Colon"));
        } else {
          ch := chars[curIndex];
          curIndex := curIndex + 1;
          match ch
          case '=' =>
            r := Some(DelimiterToken("Assign"));
          case _ =>
            curIndex := curIndex - 1;
            r := Some(DelimiterToken("Colon"));
        }
      } else {
        match ch
        case '+' => r := Some(Token(Delimiter, "Plus"));
        case '*' => r := Some(Token(Delimiter, "Star"));
        case ',' => r := Some(Token(Delimiter, "Comma"));
        case '(' => r := Some(Token(Delimiter, "LParenthesis"));
        case ')' => r := Some(Token(Delimiter, "RParenthesis"));
        case _ => r := Some(Token(Unknown, ""));
      }
    }
  }
}
