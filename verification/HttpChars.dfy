/** Character classes of the HTTP and URL parsers in strict mode.  A byte of the
    input is a `char`; the C tables cover codes 0..255 and nothing here depends on
    codes above that. */
module HttpChars {

  const CR: char := '\r'
  const LF: char := '\n'
  const TAB: char := '\t'
  const FF: char := '\U{0C}'

  /** The value of `c | 0x20` for a byte. */
  function Lower(c: char): char {
    var n := c as int;
    if n < 256 && (n / 32) % 2 == 0 then (n + 32) as char else c
  }

  predicate IsAlpha(c: char) {
    'a' <= c <= 'z' || 'A' <= c <= 'Z'
  }

  predicate IsNum(c: char) {
    '0' <= c <= '9'
  }

  predicate IsAlphanum(c: char) {
    IsAlpha(c) || IsNum(c)
  }

  predicate IsHex(c: char) {
    IsNum(c) || 'a' <= c <= 'f' || 'A' <= c <= 'F'
  }

  predicate IsMark(c: char) {
    c == '-' || c == '_' || c == '.' || c == '!' || c == '~' || c == '*' || c == '\'' || c == '(' || c == ')'
  }

  predicate IsUserinfoChar(c: char) {
    || IsAlphanum(c) || IsMark(c)
    || c == '%' || c == ';' || c == ':' || c == '&' || c == '=' || c == '+' || c == '$' || c == ','
  }

  predicate IsHostChar(c: char) {
    IsAlphanum(c) || c == '.' || c == '-'
  }

  /** The bit table `normal_url_char`: visible ASCII without '#' and '?'. */
  predicate IsUrlChar(c: char) {
    '!' <= c <= '~' && c != '#' && c != '?'
  }

  /** A token character of RFC 7230, section 3.2.6; the space entry of the table is
      masked out in strict mode. */
  predicate IsToken(c: char) {
    || IsAlphanum(c)
    || c == '!' || c == '#' || c == '$' || c == '%' || c == '&' || c == '\'' || c == '*' || c == '+'
    || c == '-' || c == '.' || c == '^' || c == '_' || c == '`' || c == '|' || c == '~'
  }

  /** The entry of the token table: the letter case is folded, nothing else changes. */
  function TokenLower(c: char): char {
    if 'A' <= c <= 'Z' then Lower(c) else c
  }

  predicate IsHeaderChar(c: char) {
    c == CR || c == LF || c == TAB || (c as int > 31 && c as int != 127)
  }

  /** The digit value of the table `unhex`, or -1.  Only 128 of its 256 entries have
      an initialiser, so every byte from 0x80 on reads as the digit 0. */
  function Unhex(c: char): int {
    if IsNum(c) then c as int - '0' as int
    else if 'a' <= c <= 'f' then c as int - 'a' as int + 10
    else if 'A' <= c <= 'F' then c as int - 'A' as int + 10
    else if c as int >= 128 then 0
    else -1
  }
}
