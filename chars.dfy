/** Character classification (`char_nature`) and the upper-casing applied to
    command-name characters. */
module Chars {

  /** The three natures `char_nature` distinguishes; `Code()` is its C return value. */
  datatype Nature = Normal | Whitespace | Terminator {
    function Code(): (n: nat)
      ensures n <= 2
    {
      match this
      case Normal => 0
      case Whitespace => 1
      case Terminator => 2
    }
  }

  /** Vertical tab and form feed. */
  const VerticalTab: char := '\U{B}'
  const FormFeed: char := '\U{C}'

  /** The terminators: NUL, line feed, carriage return and semicolon. */
  predicate IsTerminator(c: char) {
    c == '\0' || c == '\n' || c == '\r' || c == ';'
  }

  /** The whitespace characters: space, tab, vertical tab and form feed. */
  predicate IsWhitespace(c: char) {
    c == ' ' || c == '\t' || c == VerticalTab || c == FormFeed
  }

  /** `char_nature`: a total classification; terminators and whitespace are the
      only characters with a nature other than `Normal`. */
  function CharNature(c: char): (n: Nature)
    ensures n == Terminator <==> IsTerminator(c)
    ensures n == Whitespace <==> IsWhitespace(c)
    ensures n == Normal <==> !IsTerminator(c) && !IsWhitespace(c)
  {
    match c
    case '\0' => Terminator
    case '\n' => Terminator
    case '\r' => Terminator
    case ';' => Terminator
    case ' ' => Whitespace
    case '\t' => Whitespace
    case '\U{B}' => Whitespace
    case '\U{C}' => Whitespace
    case _ => Normal
  }

  /** The C return codes: 2 exactly for a terminator, 1 exactly for whitespace,
      0 for every other character. */
  lemma NatureCodes(c: char)
    ensures CharNature(c).Code() == 2 <==> c in {'\0', '\n', '\r', ';'}
    ensures CharNature(c).Code() == 1 <==> c in {' ', '\t', VerticalTab, FormFeed}
    ensures CharNature(c).Code() == 0 <==> c !in {'\0', '\n', '\r', ';', ' ', '\t', VerticalTab, FormFeed}
  {
  }

  /** `in ^ (('a' <= in && in <= 'z') << 5)`: a lower-case ASCII letter has bit 5
      cleared, so it becomes its upper-case letter; any other character is kept. */
  function Upper(c: char): (u: char)
    ensures 'a' <= c <= 'z' ==> 'A' <= u <= 'Z' && u as int == c as int - 32
    ensures !('a' <= c <= 'z') ==> u == c
  {
    if 'a' <= c <= 'z' then (c as int - 32) as char else c
  }

  /** Upper-casing keeps the nature of a character and is idempotent. */
  lemma UpperKeepsNature(c: char)
    ensures CharNature(Upper(c)) == CharNature(c)
    ensures Upper(Upper(c)) == Upper(c)
    ensures !('a' <= Upper(c) <= 'z')
  {
  }
}
