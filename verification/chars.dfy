/** Character classes the parser tests characters against.
    The source uses Python's str.isspace, str.isalpha, str.isnumeric and
    str.isalnum; these predicates give their answers on the ASCII range. */
module Chars {

  /** str.isspace on ASCII: tab, line feed, vertical tab, form feed, carriage
      return, the four separator controls 0x1C-0x1F, and the space. */
  predicate IsSpace(c: char) {
    c == ' ' || ('\t' <= c <= '\r') || ('\U{1C}' <= c <= '\U{1F}')
  }

  /** str.isalpha on ASCII. */
  predicate IsAlpha(c: char) {
    ('a' <= c <= 'z') || ('A' <= c <= 'Z')
  }

  /** str.isnumeric on ASCII. */
  predicate IsDigit(c: char) {
    '0' <= c <= '9'
  }

  /** str.isalnum on ASCII. */
  predicate IsAlnum(c: char) {
    IsAlpha(c) || IsDigit(c)
  }

  /** A character that may continue a dictionary key name. */
  predicate IsNameChar(c: char) {
    IsAlnum(c) || c == '_'
  }
}
