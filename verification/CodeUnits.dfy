/** Strings as sequences of UTF-16 code units, surrogates included. */
module CodeUnits {
  type Unit = x: int | 0 <= x < 0x10000

  type Text = seq<Unit>

  predicate IsHigh(c: Unit) {
    0xD800 <= c < 0xDC00
  }

  predicate IsLow(c: Unit) {
    0xDC00 <= c < 0xE000
  }

  /** A text that begins with a surrogate pair. */
  predicate IsPair(s: Text) {
    |s| >= 2 && IsHigh(s[0]) && IsLow(s[1])
  }

  function HexDigit(n: int): Unit
    requires 0 <= n < 16
  {
    if n < 10 then 0x30 + n else 0x61 + n - 10
  }
}
