/** Classes of characters by their codes, as the standards have them: RFC 7230 for header names
    and values, RFC 3986 for the parts of a URL.  What the parsers accept is stated in these
    terms; their own tables and macros are in `HttpChars`. */
module Ascii {

  predicate Between(c: char, a: nat, b: nat) { a <= c as int <= b }

  predicate Letter(c: char) { Between(c, 65, 90) || Between(c, 97, 122) }
  predicate DecimalDigit(c: char) { Between(c, 48, 57) }
  predicate HexCode(c: char) { Between(c, 48, 57) || Between(c, 65, 70) || Between(c, 97, 102) }
  predicate Visible(c: char) { Between(c, 33, 126) }

  /** Capital letters become small ones, and nothing else changes. */
  function Fold(c: char): char {
    if Between(c, 65, 90) then (c as int + 32) as char else c
  }

  // ---------------------------------------------------------------- header fields

  /** `tchar`: visible, and none of the delimiters. */
  predicate TokenCode(c: char) {
    Visible(c) && c !in "\"(),/:;<=>?@[\\]{}"
  }

  /** A byte of a field value: no control character but the tabulator. */
  predicate ValueCode(c: char) { c as int == 9 || (c as int >= 32 && c as int != 127) }

  /** The digits of a chunk size, and what the parser reads as one (a byte from 0x80 on). */
  predicate SizeCode(c: char) { HexCode(c) || c as int >= 128 }

  function SizeDigit(c: char): nat
    requires SizeCode(c)
  {
    var n := c as int;
    if n < 58 then n - 48 else if n < 71 then n - 55 else if n < 103 then n - 87 else 0
  }

  // ---------------------------------------------------------------- URLs

  predicate Unreserved(c: char) {
    Letter(c) || DecimalDigit(c) || c as int == 45 || c as int == 46 || c as int == 95 || c as int == 126
  }

  predicate SubDelimiter(c: char) { c in "!$&'()*+,;=" }

  predicate UserinfoCode(c: char) { Unreserved(c) || SubDelimiter(c) || c as int == 37 || c as int == 58 }
  predicate HostCode(c: char) { Letter(c) || DecimalDigit(c) || c as int == 45 || c as int == 46 }
  predicate AddressCode(c: char) { HexCode(c) || c as int == 46 || c as int == 58 }
  predicate ZoneCode(c: char) { Unreserved(c) || c as int == 37 }

  /** Anything visible but '#' and '?'. */
  predicate PathCode(c: char) { Visible(c) && c as int != 35 && c as int != 63 }

  predicate QueryCode(c: char) { Visible(c) && c as int != 35 }
}
