/** Character classes the scanner consults. */
module CharClass {

  /** Rust's `char::is_whitespace`: the Unicode White_Space property, which is a
      short, fixed list of code points. */
  predicate IsWhitespace(c: char) {
    var n := c as int;
    || (0x09 <= n <= 0x0D)
    || n == 0x20
    || n == 0x85
    || n == 0xA0
    || n == 0x1680
    || (0x2000 <= n <= 0x200A)
    || n == 0x2028
    || n == 0x2029
    || n == 0x202F
    || n == 0x205F
    || n == 0x3000
  }

  /** Rust's `char::is_ascii_digit`. */
  predicate IsAsciiDigit(c: char) {
    '0' <= c <= '9'
  }

  /** Rust's `char::is_alphabetic`, restricted to the ASCII letters. */
  predicate IsAlphabetic(c: char) {
    ('a' <= c <= 'z') || ('A' <= c <= 'Z')
  }

  /** Rust's `char::is_alphanumeric` (alphabetic or numeric), restricted to ASCII. */
  predicate IsAlphanumeric(c: char) {
    IsAlphabetic(c) || IsAsciiDigit(c)
  }

  /** The relations between the classes that the scanner's branches rely on:
      a letter starts an identifier run and stays in it, a digit never starts
      an identifier, and no whitespace character is part of any token. */
  lemma ClassRelations(c: char)
    ensures IsAlphabetic(c) ==> IsAlphanumeric(c)
    ensures IsAsciiDigit(c) ==> IsAlphanumeric(c) && !IsAlphabetic(c)
    ensures IsWhitespace(c) ==> !IsAlphanumeric(c)
    ensures IsWhitespace(c) ==> c !in ":=+*,()"
  {
  }
}
