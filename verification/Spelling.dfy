/** How ASCII text and hexadecimal digits are written, by example. */
module Spelling {
  import opened Hashing

  const LOWER_DIGITS := "0123456789abcdef"
  const UPPER_DIGITS := "0123456789ABCDEF"

  /** The bytes of an ASCII text. */
  function Ascii(s: string): Bytes {
    seq(|s|, i requires 0 <= i < |s| => s[i] as int % 256)
  }

  /** The byte is a way to write the hexadecimal digit `d`. */
  predicate WritesDigit(b: byte, d: int) {
    0 <= d < 16 && (b == LOWER_DIGITS[d] as int || b == UPPER_DIGITS[d] as int)
  }

  /** `s` writes the bytes of `w`, two digits each, the high one first. */
  predicate WritesBytes(s: Bytes, w: Bytes) {
    && |s| == 2 * |w|
    && forall i :: 0 <= i < |w| ==> WritesDigit(s[2 * i], w[i] / 16) && WritesDigit(s[2 * i + 1], w[i] % 16)
  }

  /** The byte is the ASCII letter `k` places after A, in capitals or not. */
  predicate WritesLetter(b: byte, k: int) {
    0 <= k < 26 && (b == 'a' as int + k || b == 'A' as int + k)
  }

  ghost predicate SameLetter(a: byte, b: byte) {
    exists k :: WritesLetter(a, k) && WritesLetter(b, k)
  }

  /** The strings differ in the case of letters at most. */
  ghost predicate SameButCase(v: Bytes, w: Bytes) {
    |v| == |w| && forall i :: 0 <= i < |v| ==> v[i] == w[i] || SameLetter(v[i], w[i])
  }

  predicate NoCapitals(w: Bytes) {
    forall i :: 0 <= i < |w| ==> !('A' as int <= w[i] <= 'Z' as int)
  }
}
