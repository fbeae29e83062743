# Lexer for a small Pascal-like language

This project models the lexer in `src/main.rs`. The lexer turns a text into a
stream of tokens. A token has a kind (identifier, keyword, unsigned number,
delimiter or unknown) and a content string. It also models the token
constructors, the keyword table, the display form `to_string`, and the
repository's three tests.

The model has five files.

- `CharClass.dfy`: the character classes the scanner asks about (whitespace,
  alphabetic, alphanumeric, ASCII digit), and the relations between them that
  its branches rely on.
- `Tokens.dfy`: `TokenType` and `Token`, and the constructors `keyword`,
  `identify`, `unsigned_number` and `delimiter`. Each constructor is written
  as a one-line function that fixes the kind. The file also holds the
  case-sensitive keyword classifier `KeywordOrIdentify` and the display form
  `ToString`. `WellFormed` describes the tokens the scanner can produce. On
  those tokens the display form is proved injective.
- `Scanner.dfy`: one call of the iterator as a pure function. `Step` maps the
  input and the cursor to the token found (`None` when only whitespace is
  left) and the new cursor. `Step` is made of `SkipWhitespace`, `RunEnd` (the
  longest run of one character class) and `Classify`. Lemmas state, branch by
  branch, what one step consumes and yields. `TokenStream` is the sequence of
  tokens that repeated calls yield. `LexemesCoverInput` proves that the
  consumed text of the tokens, laid end to end, is exactly the characters of
  the input that are not whitespace.
- `Lexer.dfy`: the iterator as the source runs it. `TokenIterator` is a class
  with the input `chars` and a mutable cursor `curIndex`. `Next` keeps the
  source's loops: the whitespace loop reads one character past the blanks, and
  the run loops read the character that ends a run and then give it back
  (`curIndex := curIndex - 1`). `Next` is proved to agree with `Step`. The
  cursor is a `nat`, so every give-back is proved not to go below zero. The
  identifier loop and the digit loop are identical except for the character
  class they test, so both are one method, `TakeRun`, called with that class.
- `LexerTests.dfy`: the three `#[test]` functions as client methods. Each one
  builds an iterator, calls `Next` repeatedly, renders the tokens, and ends on
  `None`. Each method's postcondition lists the strings that test asserts.

The model follows the code as written. In particular, an unknown character is
consumed: the whitespace loop reads it and advances past it, and no branch
gives it back. So every step that yields a token moves the cursor forward as
the code stands, without any change to it.

## Model

| member | source | states |
|---|---|---|
| `CharClass.ClassRelations` | src/main.rs:123-146 | a letter is alphanumeric, so its run is never empty; an ASCII digit is alphanumeric but not a letter; whitespace is neither alphanumeric nor one of `: = + * , ( )` |
| `Tokens.KeywordOrIdentify` | src/main.rs:67-77 | the result is a keyword exactly when the text is one of `BEGIN END FOR IF THEN ELSE`; the keyword's name is the spelling with every letter after the first lower-cased, and it is one of the six canonical names; any other text becomes an identifier with the text unchanged |
| `Tokens.LowerCaseLetterMakesIdentifier` | src/main.rs:67-77 | matching is case-sensitive: any text holding a lower-case letter is an identifier |
| `Tokens.KeywordExamples` | src/main.rs:67-77 | `BEGIN` gives keyword `Begin`, `ELSE` gives `Else`, while `begin` and `BEGINX` give identifiers with the same text |
| `Tokens.KeywordToken` | src/main.rs:53-58 | builds a token of kind keyword with the given content; no contract of its own, its uses are fixed by `KeywordOrIdentify` |
| `Tokens.IdentifyToken` | src/main.rs:60-65 | builds a token of kind identifier with the given content; no contract of its own, its uses are fixed by `KeywordOrIdentify` |
| `Tokens.UnsignedNumberToken` | src/main.rs:79-84 | builds a token of kind unsigned number with the given content; no contract of its own, its use is fixed by `StepUnsignedNumber` |
| `Tokens.DelimiterToken` | src/main.rs:86-91 | builds a token of kind delimiter with the given name; no contract of its own, its uses are fixed by `StepColon` and `SingleCharToken` |
| `Tokens.ToString` | src/main.rs:95-113 | the display form: `Ident(<text>)`, `Int(<text>)`, the name itself for keywords and delimiters, `Unknown` for the unknown token; no contract of its own, what is proved about it is stated by `DisplayInjective` and by `Test1`–`Test3` |
| `Tokens.DisplayInjective` | src/main.rs:95-113 | two well-formed tokens with the same display are equal, so `Ident(..)`, `Int(..)`, the keyword and delimiter names and `Unknown` never collide |
| `Scanner.SkipWhitespace` | src/main.rs:122-130 | the result is the first position at or after the cursor that is not whitespace, or the end of the input; everything skipped is whitespace |
| `Scanner.RunEnd` | src/main.rs:132-140 | the result is the end of the longest run of characters of one class starting at the given position |
| `Scanner.RunEndUnique` | src/main.rs:132-142 | a run that stops before a character outside the class, or at the end of the input, ends where `RunEnd` says |
| `Scanner.SingleCharToken` | src/main.rs:173-198 | the token is a delimiter exactly when the character is one of `+ * , ( )`; any other character gives the unknown token with empty content; the token is well formed |
| `Scanner.Classify` | src/main.rs:131-199 | the token starting at a non-whitespace position consumes at least one character and stays inside the input |
| `Scanner.Step` | src/main.rs:119-200 | one call yields `None` exactly when only whitespace is left, and then leaves the cursor at the end; a token always ends after the skipped whitespace; the cursor never passes the end |
| `Scanner.StepNoneIffOnlyWhitespace` | src/main.rs:122-130 | `next` gives `None` if and only if every character from the cursor on is whitespace, and the cursor is then at `chars.len()` |
| `Scanner.StepProgress` | src/main.rs:123-199 | every token strictly advances the cursor; no step moves it beyond the end or backwards |
| `Scanner.ExhaustedStaysExhausted` | src/main.rs:124-125 | at the end of the input a further call yields `None` again and leaves the cursor there |
| `Scanner.StepIdentifierOrKeyword` | src/main.rs:131-144 | after whitespace, a letter starts the longest alphanumeric run; the cursor stops at the first character outside it or at the end; that text goes through `KeywordOrIdentify` |
| `Scanner.StepUnsignedNumber` | src/main.rs:145-157 | a digit starts the longest ASCII-digit run, which becomes an unsigned number holding exactly that run; the character after it is not consumed |
| `Scanner.StepColon` | src/main.rs:158-171 | `:` then `=` yields `Assign` and consumes both; `:` at the end or before anything else yields `Colon` and consumes one character |
| `Scanner.StepSingleChar` | src/main.rs:172-198 | any other character is consumed alone; it is a delimiter exactly when it is one of `+ * , ( )`, named `Plus Star Comma LParenthesis RParenthesis`; otherwise the token is unknown with empty content |
| `Scanner.StepWellFormed` | src/main.rs:131-199 | every token the scanner yields is well formed: an identifier is a non-empty alphanumeric run that starts with a letter and is not reserved; a number is a non-empty run of digits; a keyword or delimiter carries one of its canonical names; an unknown token is empty |
| `Scanner.TokenStream` | src/main.rs:116-200 | the whole stream from a cursor has at most as many tokens as characters remain |
| `Scanner.StreamWellFormed` | src/main.rs:116-200 | every token of the stream is well formed |
| `Scanner.StepAccountsFor` | src/main.rs:122-199 | one step accounts for exactly the non-whitespace characters between the old and the new cursor: its lexeme |
| `Scanner.LexemesCoverInput` | src/main.rs:116-200 | joined end to end, the lexemes of the stream are the input's non-whitespace characters in order, none used twice or skipped, one lexeme per token |
| `Scanner.WhitespaceOnlyYieldsNothing` | src/main.rs:122-130 | an input consisting only of whitespace yields no tokens |
| `Scanner.DigitThenLetter` | src/main.rs:145-157 | `1a` is the number `1` followed by the identifier `a` |
| `Scanner.ColonExamples` | src/main.rs:158-171 | `:=` is one `Assign`; `:` and `: ` are one `Colon` each |
| `Lexer.TokenIterator.constructor` | src/main.rs:31-37 | a new iterator holds the given characters with the cursor at 0 |
| `Lexer.TokenIterator.TakeRun` | src/main.rs:132-155 | the run loop collects the longest run of the class that starts at the character just read, and gives back the terminator so the cursor stops right after the run |
| `Lexer.TokenIterator.Next` | src/main.rs:119-200 | the returned token and the new cursor are exactly `Step` of the input at the old cursor; the cursor stays within the input |
| `LexerTests.StepsOfTest1` | src/main.rs:207-219 | on `a1 a1 a1` the steps yield three identifiers `a1` with cursors 2, 5, 8, then `None` |
| `LexerTests.Test1` | src/main.rs:207-219 | the iterator over `a1 a1 a1` shows `Ident(a1)` three times, then is exhausted |
| `LexerTests.StepsOfTest2` | src/main.rs:221-232 | on `:= a2` the steps yield `Assign`, then identifier `a2`, then `None` |
| `LexerTests.Test2` | src/main.rs:221-232 | the iterator over `:= a2` shows `Assign`, `Ident(a2)`, then is exhausted |
| `LexerTests.StepsOfTest3` | src/main.rs:234-247 | on `:= a2 1a` the steps yield `Assign`, identifier `a2`, number `1`, identifier `a`, then `None` |
| `LexerTests.Test3` | src/main.rs:234-247 | the iterator over `:= a2 1a` shows `Assign`, `Ident(a2)`, `Int(1)`, `Ident(a)`, then is exhausted |

## Left out

- `main` (src/main.rs:3-13) is not modelled. It reads the command-line argument, prints each token and stops at the first unknown token. That is input, output and caller policy, not lexer behaviour. Its stop decision tests the token kind (src/main.rs:8-9), which in the model is `tokenType == Unknown`; it does not look at the display string. `DisplayInjective` shows separately that the printed form loses nothing, so a reader of the printed lines can pick out the unknown token.
- The `IntoIterator` and `Iterator` trait plumbing and the lifetimes (src/main.rs:27-38, 116-117) are not modelled. Building the iterator is the class constructor, and the iterator protocol is the method `Next`.
- The Unicode tables behind `is_alphabetic` and `is_alphanumeric` are not modelled. They are approximated by the ASCII letters, and by the ASCII letters and digits. A non-ASCII letter, or a non-ASCII numeric character such as `²` after a letter, is therefore an unknown token in the model, while the source would start or continue an identifier with it: the source reads `a²` as one identifier `Ident(a²)`, the model as an identifier `a` followed by an unknown token. `is_whitespace` is modelled exactly, as the Unicode White_Space list, and `is_ascii_digit` is exact.
- The `token: String` buffer that the source keeps in the iterator and reuses across calls (src/main.rs:43, 120) is modelled as a local string built in `TakeRun`. Reusing it is only an allocation detail.
- `usize` is modelled as `nat`. The cursor never exceeds `chars.len()`, so no overflow can arise. A decrement below zero would be a type error, and none is possible.
- The constructors `KeywordToken`, `IdentifyToken`, `UnsignedNumberToken`, `DelimiterToken` and the display `ToString` carry no postconditions of their own. Each only builds its value. What they mean is stated by `KeywordOrIdentify`, `StepWellFormed`, `DisplayInjective` and the three tests.
