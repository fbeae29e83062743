/** The scan step as a pure function of the input and the cursor, and what it
    guarantees: the class of every branch, forward progress, and that the
    stream of tokens uses every non-whitespace character exactly once. */
module Scanner {
  import opened CharClass
  import opened Tokens

  datatype Option<T> = None | Some(value: T)

  /** The first position at or after `i` that does not hold whitespace. */
  function SkipWhitespace(s: seq<char>, i: nat): (j: nat)
    requires i <= |s|
    ensures i <= j <= |s|
    ensures forall k :: i <= k < j ==> IsWhitespace(s[k])
    ensures j < |s| ==> !IsWhitespace(s[j])
    decreases |s| - i
  {
    if i < |s| && IsWhitespace(s[i]) then SkipWhitespace(s, i + 1) else i
  }

  /** The end of the longest run of characters satisfying `p` that starts at `i`. */
  function RunEnd(s: seq<char>, i: nat, p: char -> bool): (j: nat)
    requires i <= |s|
    ensures i <= j <= |s|
    ensures forall k :: i <= k < j ==> p(s[k])
    ensures j < |s| ==> !p(s[j])
    decreases |s| - i
  {
    if i < |s| && p(s[i]) then RunEnd(s, i + 1, p) else i
  }

  /** A run that is all `p` and ends before a non-`p` character (or at the end
      of the input) is the longest one: a scanner that stops there has found
      `RunEnd`. */
  lemma {:induction false} RunEndUnique(s: seq<char>, i: nat, p: char -> bool, e: nat)
    requires i <= e <= |s|
    requires forall k :: i <= k < e ==> p(s[k])
    requires e < |s| ==> !p(s[e])
    ensures RunEnd(s, i, p) == e
    decreases e - i
  {
    if i < e {
      RunEndUnique(s, i + 1, p, e);
    }
  }

  /** The token of a character that is neither alphanumeric nor a colon: one
      of the five delimiters by name, or else the unknown token. */
  function SingleCharToken(c: char): (t: Token)
    ensures t.tokenType == Delimiter <==> c in "+*,()"
    ensures t.tokenType != Delimiter ==> t == Token(Unknown, "")
    ensures WellFormed(t)
  {
    match c
    case '+' => DelimiterToken("Plus")
    case '*' => DelimiterToken("Star")
    case ',' => DelimiterToken("Comma")
    case '(' => DelimiterToken("LParenthesis")
    case ')' => DelimiterToken("RParenthesis")
    case _ => Token(Unknown, "")
  }

  /** The token that starts at the non-whitespace position `j`, and the
      position just past it. */
  function Classify(s: seq<char>, j: nat): (r: (Token, nat))
    requires j < |s|
    ensures j < r.1 <= |s|
  {
    var c := s[j];
    if IsAlphabetic(c) then
      var e := RunEnd(s, j, IsAlphanumeric);
      (KeywordOrIdentify(s[j..e]), e)
    else if IsAsciiDigit(c) then
      var e := RunEnd(s, j, IsAsciiDigit);
      (UnsignedNumberToken(s[j..e]), e)
    else if c == ':' then
      if j + 1 < |s| && s[j + 1] == '=' then (DelimiterToken("Assign"), j + 2)
      else (DelimiterToken("Colon"), j + 1)
    else
      (SingleCharToken(c), j + 1)
  }

  /** One call of the iterator: the token found from cursor `pos` (None once
      only whitespace remains) and the cursor afterwards. */
  function Step(s: seq<char>, pos: nat): (r: (Option<Token>, nat))
    requires pos <= |s|
    ensures r.1 <= |s|
    ensures r.0.None? <==> SkipWhitespace(s, pos) == |s|
    ensures r.0.None? ==> r.1 == |s|
    ensures r.0.Some? ==> SkipWhitespace(s, pos) < r.1
  {
    var j := SkipWhitespace(s, pos);
    if j == |s| then (None, |s|)
    else
      var (t, e) := Classify(s, j);
      (Some(t), e)
  }

  /** The stream ends exactly when nothing but whitespace is left, and it then
      leaves the cursor at the end of the input. */
  lemma StepNoneIffOnlyWhitespace(s: seq<char>, pos: nat)
    requires pos <= |s|
    ensures Step(s, pos).0.None? <==> forall k :: pos <= k < |s| ==> IsWhitespace(s[k])
    ensures Step(s, pos).0.None? ==> Step(s, pos).1 == |s|
  {
    var j := SkipWhitespace(s, pos);
    if j < |s| {
      assert !IsWhitespace(s[j]);
    }
  }

  /** Every token consumes at least one character, and the cursor never passes
      the end of the input. */
  lemma StepProgress(s: seq<char>, pos: nat)
    requires pos <= |s|
    ensures Step(s, pos).0.Some? ==> pos < Step(s, pos).1 <= |s|
    ensures Step(s, pos).0.None? ==> pos <= Step(s, pos).1 == |s|
  {
  }

  /** Once exhausted, the stream stays exhausted. */
  lemma ExhaustedStaysExhausted(s: seq<char>)
    ensures Step(s, |s|) == (None, |s|)
  {
  }

  /** A letter starts the longest run of letters and digits, the cursor stops
      at the first character outside it, and the run is classified as keyword
      or identifier. */
  lemma StepIdentifierOrKeyword(s: seq<char>, pos: nat)
    requires pos <= |s|
    requires SkipWhitespace(s, pos) < |s| && IsAlphabetic(s[SkipWhitespace(s, pos)])
    ensures var j, e := SkipWhitespace(s, pos), Step(s, pos).1;
      && j < e <= |s|
      && (forall k :: j <= k < e ==> IsAlphanumeric(s[k]))
      && (e < |s| ==> !IsAlphanumeric(s[e]))
      && Step(s, pos).0 == Some(KeywordOrIdentify(s[j..e]))
  {
  }

  /** A digit starts the longest run of ASCII digits, which becomes an unsigned
      number token; the character ending the run is left for the next call. */
  lemma StepUnsignedNumber(s: seq<char>, pos: nat)
    requires pos <= |s|
    requires SkipWhitespace(s, pos) < |s| && IsAsciiDigit(s[SkipWhitespace(s, pos)])
    ensures var j, e := SkipWhitespace(s, pos), Step(s, pos).1;
      && j < e <= |s|
      && (forall k :: j <= k < e ==> IsAsciiDigit(s[k]))
      && (e < |s| ==> !IsAsciiDigit(s[e]))
      && Step(s, pos).0 == Some(Token(UnsignedNumber, s[j..e]))
  {
    ClassRelations(s[SkipWhitespace(s, pos)]);
  }

  /** A colon followed by `=` is an assignment and consumes both; otherwise,
      also at the end of the input, it is a colon and consumes only itself. */
  lemma StepColon(s: seq<char>, pos: nat)
    requires pos <= |s|
    requires SkipWhitespace(s, pos) < |s| && s[SkipWhitespace(s, pos)] == ':'
    ensures var j := SkipWhitespace(s, pos);
      Step(s, pos) ==
        if j + 1 < |s| && s[j + 1] == '=' then (Some(Token(Delimiter, "Assign")), j + 2)
        else (Some(Token(Delimiter, "Colon")), j + 1)
  {
  }

  /** Any other character is consumed on its own: the five delimiters get
      their names, everything else is the unknown token with empty content. */
  lemma StepSingleChar(s: seq<char>, pos: nat)
    requires pos <= |s|
    requires var j := SkipWhitespace(s, pos);
      j < |s| && !IsAlphabetic(s[j]) && !IsAsciiDigit(s[j]) && s[j] != ':'
    ensures var j := SkipWhitespace(s, pos);
      && Step(s, pos).1 == j + 1
      && Step(s, pos).0.Some?
      && var t := Step(s, pos).0.value;
      && (t.tokenType == Delimiter <==> s[j] in "+*,()")
      && (t.tokenType != Delimiter ==> t == Token(Unknown, ""))
      && (s[j] == '+' ==> t.content == "Plus")
      && (s[j] == '*' ==> t.content == "Star")
      && (s[j] == ',' ==> t.content == "Comma")
      && (s[j] == '(' ==> t.content == "LParenthesis")
      && (s[j] == ')' ==> t.content == "RParenthesis")
  {
  }

  /** Every token the scanner produces is well formed. */
  lemma StepWellFormed(s: seq<char>, pos: nat)
    requires pos <= |s|
    requires Step(s, pos).0.Some?
    ensures WellFormed(Step(s, pos).0.value)
  {
    var j := SkipWhitespace(s, pos);
    var t := Step(s, pos).0.value;
    if IsAlphabetic(s[j]) {
      var e := RunEnd(s, j, IsAlphanumeric);
      var w := s[j..e];
      assert w[0] == s[j];
      assert forall i :: 0 <= i < |w| ==> w[i] == s[j + i];
      if t.tokenType != Keyword {
        assert t == IdentifyToken(w);
      }
    } else if IsAsciiDigit(s[j]) {
      var e := RunEnd(s, j, IsAsciiDigit);
      assert forall i :: 0 <= i < e - j ==> s[j..e][i] == s[j + i];
    }
  }

  /** The whole token stream from cursor `pos`: what repeated calls yield
      before the first None. */
  function TokenStream(s: seq<char>, pos: nat): (ts: seq<Token>)
    requires pos <= |s|
    ensures |ts| <= |s| - pos
    decreases |s| - pos
  {
    var (t, next) := Step(s, pos);
    match t
    case None => []
    case Some(tok) => [tok] + TokenStream(s, next)
  }

  /** Every token of the stream is one the scanner can produce. */
  lemma {:induction false} StreamWellFormed(s: seq<char>, pos: nat)
    requires pos <= |s|
    ensures forall i :: 0 <= i < |TokenStream(s, pos)| ==> WellFormed(TokenStream(s, pos)[i])
    decreases |s| - pos
  {
    if Step(s, pos).0.Some? {
      StepWellFormed(s, pos);
      StreamWellFormed(s, Step(s, pos).1);
    }
  }

  /** The source text of every token of the stream, in order. */
  function Lexemes(s: seq<char>, pos: nat): (ls: seq<string>)
    requires pos <= |s|
    decreases |s| - pos
  {
    var (t, next) := Step(s, pos);
    if t.None? then []
    else [s[SkipWhitespace(s, pos)..next]] + Lexemes(s, next)
  }

  function Flatten(ls: seq<string>): string {
    if ls == [] then [] else ls[0] + Flatten(ls[1..])
  }

  /** The characters of `s` that are not whitespace, in order. */
  function NonWhitespace(s: seq<char>): (r: seq<char>)
    ensures |r| <= |s|
    ensures forall k :: 0 <= k < |r| ==> !IsWhitespace(r[k])
  {
    if s == [] then []
    else (if IsWhitespace(s[0]) then [] else [s[0]]) + NonWhitespace(s[1..])
  }

  lemma {:induction false} NonWhitespaceAppend(a: seq<char>, b: seq<char>)
    ensures NonWhitespace(a + b) == NonWhitespace(a) + NonWhitespace(b)
    decreases |a|
  {
    if a == [] {
      assert a + b == b;
    } else {
      assert (a + b)[1..] == a[1..] + b;
      NonWhitespaceAppend(a[1..], b);
    }
  }

  lemma {:induction false} NonWhitespaceOfWhitespace(a: seq<char>)
    requires forall k :: 0 <= k < |a| ==> IsWhitespace(a[k])
    ensures NonWhitespace(a) == []
    decreases |a|
  {
    if a != [] {
      NonWhitespaceOfWhitespace(a[1..]);
    }
  }

  lemma {:induction false} NonWhitespaceOfSolid(a: seq<char>)
    requires forall k :: 0 <= k < |a| ==> !IsWhitespace(a[k])
    ensures NonWhitespace(a) == a
    decreases |a|
  {
    if a != [] {
      NonWhitespaceOfSolid(a[1..]);
    }
  }

  /** A lexeme holds no whitespace. */
  lemma LexemeHasNoWhitespace(s: seq<char>, pos: nat)
    requires pos <= |s|
    requires Step(s, pos).0.Some?
    ensures forall k :: SkipWhitespace(s, pos) <= k < Step(s, pos).1 ==> !IsWhitespace(s[k])
  {
    var j := SkipWhitespace(s, pos);
    if IsAlphabetic(s[j]) {
      forall k | j <= k < Step(s, pos).1 ensures !IsWhitespace(s[k]) {
        ClassRelations(s[k]);
      }
    } else if IsAsciiDigit(s[j]) {
      forall k | j <= k < Step(s, pos).1 ensures !IsWhitespace(s[k]) {
        ClassRelations(s[k]);
      }
    } else if s[j] == ':' {
      ClassRelations(s[j]);
      if j + 1 < |s| && s[j + 1] == '=' {
        ClassRelations(s[j + 1]);
      }
    }
  }

  /** One step accounts for the non-whitespace characters up to its cursor. */
  lemma StepAccountsFor(s: seq<char>, pos: nat)
    requires pos <= |s|
    requires Step(s, pos).0.Some?
    ensures NonWhitespace(s[pos..]) ==
      s[SkipWhitespace(s, pos)..Step(s, pos).1] + NonWhitespace(s[Step(s, pos).1..])
  {
    var j, next := SkipWhitespace(s, pos), Step(s, pos).1;
    LexemeHasNoWhitespace(s, pos);
    assert pos <= j < next <= |s|;
    assert s[j..] == s[j..next] + s[next..];
    assert s[pos..] == s[pos..j] + s[j..];
    NonWhitespaceAppend(s[pos..j], s[j..next] + s[next..]);
    NonWhitespaceAppend(s[j..next], s[next..]);
    NonWhitespaceOfWhitespace(s[pos..j]);
    NonWhitespaceOfSolid(s[j..next]);
  }

  /** No character is used twice or skipped: put end to end, the lexemes of
      the stream are exactly the non-whitespace characters of the input. */
  lemma {:induction false} LexemesCoverInput(s: seq<char>, pos: nat)
    requires pos <= |s|
    ensures Flatten(Lexemes(s, pos)) == NonWhitespace(s[pos..])
    ensures |Lexemes(s, pos)| == |TokenStream(s, pos)|
    decreases |s| - pos
  {
    if Step(s, pos).0.None? {
      StepNoneIffOnlyWhitespace(s, pos);
      NonWhitespaceOfWhitespace(s[pos..]);
    } else {
      var next := Step(s, pos).1;
      LexemesCoverInput(s, next);
      StepAccountsFor(s, pos);
      var ls := Lexemes(s, pos);
      assert ls == [s[SkipWhitespace(s, pos)..next]] + Lexemes(s, next);
      assert ls[1..] == Lexemes(s, next);
    }
  }

  /** An input of whitespace only yields no token at all. */
  lemma WhitespaceOnlyYieldsNothing(s: seq<char>)
    requires forall k :: 0 <= k < |s| ==> IsWhitespace(s[k])
    ensures TokenStream(s, 0) == []
  {
    StepNoneIffOnlyWhitespace(s, 0);
  }

  /** Digits and letters never merge: "1a" is a number and then an identifier. */
  lemma DigitThenLetter()
    ensures TokenStream("1a", 0) == [Token(UnsignedNumber, "1"), Token(Identify, "a")]
  {
    var s := "1a";
    assert SkipWhitespace(s, 0) == 0 && RunEnd(s, 0, IsAsciiDigit) == 1 && s[0..1] == "1";
    assert SkipWhitespace(s, 1) == 1 && RunEnd(s, 1, IsAlphanumeric) == 2 && s[1..2] == "a";
    assert TokenStream(s, 2) == [];
  }

  /** The colon cases at the end of the input and before a blank. */
  lemma ColonExamples()
    ensures TokenStream(":=", 0) == [Token(Delimiter, "Assign")]
    ensures TokenStream(":", 0) == [Token(Delimiter, "Colon")]
    ensures TokenStream(": ", 0) == [Token(Delimiter, "Colon")]
  {
  }
}
