/** Kotlin's `Char.isWhitespace` and `CharSequence.isBlank` on the JVM. */
module Text {

  /**
   * `Character.isWhitespace(c) || Character.isSpaceChar(c)`: the ASCII controls
   * U+0009..U+000D and U+001C..U+001F, and every Unicode space, line and
   * paragraph separator (U+0020, U+00A0, U+1680, U+2000..U+200A, U+2028,
   * U+2029, U+202F, U+205F, U+3000).
   */
  function IsWhitespace(c: char): (ws: bool)
    ensures c as int < 0x80 ==> (ws <==> 0x09 <= c as int <= 0x0D || 0x1C <= c as int <= 0x20)
    ensures c as int in {0xA0, 0x2007, 0x202F} ==> ws   // the no-break spaces count too
    ensures ws ==> c as int <= 0x3000
  {
    var n := c as int;
    || 0x09 <= n <= 0x0D
    || 0x1C <= n <= 0x20
    || n == 0xA0
    || n == 0x1680
    || 0x2000 <= n <= 0x200A
    || n == 0x2028 || n == 0x2029 || n == 0x202F || n == 0x205F
    || n == 0x3000
  }

  /** A string is blank when every character is whitespace; the empty string is blank. */
  function IsBlank(s: string): (blank: bool)
    ensures blank <==> forall i :: 0 <= i < |s| ==> IsWhitespace(s[i])
  {
    s == [] || (IsWhitespace(s[0]) && IsBlank(s[1..]))
  }

  /** Blank and non-empty are different tests: the empty string is blank, and so is a lone space. */
  lemma BlankIsNotEmpty()
    ensures IsBlank("") && IsBlank(" ")
    ensures !IsBlank("a")
  {
    assert !IsWhitespace("a"[0]);
  }
}
