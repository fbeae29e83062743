/** The repository's three test scenarios, written as clients of the iterator:
    each builds an iterator over a text, takes tokens one at a time, renders
    them, and checks that the stream is then exhausted. */
module LexerTests {
  import opened CharClass
  import opened Tokens
  import opened Scanner
  import opened Lexer

  /** The steps of the first scenario, computed on the step function. */
  lemma StepsOfTest1()
    ensures Step("a1 a1 a1", 0) == (Some(Token(Identify, "a1")), 2)
    ensures Step("a1 a1 a1", 2) == (Some(Token(Identify, "a1")), 5)
    ensures Step("a1 a1 a1", 5) == (Some(Token(Identify, "a1")), 8)
    ensures Step("a1 a1 a1", 8) == (None, 8)
  {
    var s := "a1 a1 a1";
    assert SkipWhitespace(s, 0) == 0 && RunEnd(s, 0, IsAlphanumeric) == 2 && s[0..2] == "a1";
    assert SkipWhitespace(s, 2) == 3 && RunEnd(s, 3, IsAlphanumeric) == 5 && s[3..5] == "a1";
    assert SkipWhitespace(s, 5) == 6 && RunEnd(s, 6, IsAlphanumeric) == 8 && s[6..8] == "a1";
  }

  method Test1() returns (shown: seq<string>, exhausted: bool)
    ensures shown == ["Ident(a1)", "Ident(a1)", "Ident(a1)"]
    ensures exhausted
  {
    StepsOfTest1();
    assert ToString(Token(Identify, "a1")) == "Ident(a1)";
    var iter := new TokenIterator("a1 a1 a1");
    var t1 := iter.Next();
    var t2 := iter.Next();
    var t3 := iter.Next();
    var t4 := iter.Next();
    shown := [ToString(t1.value), ToString(t2.value), ToString(t3.value)];
    exhausted := t4.None?;
  }

  /** The steps of the second scenario. */
  lemma StepsOfTest2()
    ensures Step(":= a2", 0) == (Some(Token(Delimiter, "Assign")), 2)
    ensures Step(":= a2", 2) == (Some(Token(Identify, "a2")), 5)
    ensures Step(":= a2", 5) == (None, 5)
  {
    var s := ":= a2";
    assert SkipWhitespace(s, 0) == 0;
    assert SkipWhitespace(s, 2) == 3 && RunEnd(s, 3, IsAlphanumeric) == 5 && s[3..5] == "a2";
  }

  method Test2() returns (shown: seq<string>, exhausted: bool)
    ensures shown == ["Assign", "Ident(a2)"]
    ensures exhausted
  {
    StepsOfTest2();
    assert ToString(Token(Identify, "a2")) == "Ident(a2)";
    var iter := new TokenIterator(":= a2");
    var t1 := iter.Next();
    var t2 := iter.Next();
    var t3 := iter.Next();
    shown := [ToString(t1.value), ToString(t2.value)];
    exhausted := t3.None?;
  }

  /** The steps of the third scenario: the digit run stops before the letter. */
  lemma StepsOfTest3()
    ensures Step(":= a2 1a", 0) == (Some(Token(Delimiter, "Assign")), 2)
    ensures Step(":= a2 1a", 2) == (Some(Token(Identify, "a2")), 5)
    ensures Step(":= a2 1a", 5) == (Some(Token(UnsignedNumber, "1")), 7)
    ensures Step(":= a2 1a", 7) == (Some(Token(Identify, "a")), 8)
    ensures Step(":= a2 1a", 8) == (None, 8)
  {
    var s := ":= a2 1a";
    assert SkipWhitespace(s, 0) == 0;
    assert SkipWhitespace(s, 2) == 3 && RunEnd(s, 3, IsAlphanumeric) == 5 && s[3..5] == "a2";
    assert SkipWhitespace(s, 5) == 6 && RunEnd(s, 6, IsAsciiDigit) == 7 && s[6..7] == "1";
    assert SkipWhitespace(s, 7) == 7 && RunEnd(s, 7, IsAlphanumeric) == 8 && s[7..8] == "a";
  }

  method Test3() returns (shown: seq<string>, exhausted: bool)
    ensures shown == ["Assign", "Ident(a2)", "Int(1)", "Ident(a)"]
    ensures exhausted
  {
    StepsOfTest3();
    assert ToString(Token(Identify, "a2")) == "Ident(a2)";
    assert ToString(Token(UnsignedNumber, "1")) == "Int(1)";
    assert ToString(Token(Identify, "a")) == "Ident(a)";
    var iter := new TokenIterator(":= a2 1a");
    var t1 := iter.Next();
    var t2 := iter.Next();
    var t3 := iter.Next();
    var t4 := iter.Next();
    var t5 := iter.Next();
    shown := [ToString(t1.value), ToString(t2.value), ToString(t3.value), ToString(t4.value)];
    exhausted := t5.None?;
  }
}
