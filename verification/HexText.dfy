/**
 Hexadecimal text as the program writes it, and the two ways in which it reads it.
 */
module HexText {
  import opened Hashing
  import opened Results

  predicate HexDigit(c: char) {
    '0' <= c <= '9' || 'a' <= c <= 'f' || 'A' <= c <= 'F'
  }

  predicate Blank(c: char) {
    c == ' ' || '\t' <= c <= '\r'
  }

  function LowerChar(c: char): char {
    if 'A' <= c <= 'Z' then c - 'A' + 'a' else c
  }

  function Lower(s: string): string {
    seq(|s|, i requires 0 <= i < |s| => LowerChar(s[i]))
  }

  lemma LowerTwice(s: string)
    ensures Lower(Lower(s)) == Lower(s)
  {
  }

  function DigitChar(d: int): char
    requires 0 <= d < 16
  {
    "0123456789abcdef"[d]
  }

  function DigitValue(c: char): int
    requires HexDigit(c)
  {
    if c <= '9' then c as int - '0' as int
    else if c <= 'F' then c as int - 'A' as int + 10
    else c as int - 'a' as int + 10
  }

  /** Two lower-case digits a byte. */
  function Digits(b: Bytes): string {
    if b == [] then "" else [DigitChar(b[0] / 16), DigitChar(b[0] % 16)] + Digits(b[1..])
  }

  /** How the program writes every byte string. */
  function Hex(b: Bytes): string {
    "0x" + Digits(b)
  }

  /** `bytes.fromhex`: pairs of digits, with blanks allowed between the pairs. */
  function FromHex(s: string): Option<Bytes> {
    if s == "" then Some([])
    else if Blank(s[0]) then FromHex(s[1..])
    else if |s| >= 2 && HexDigit(s[0]) && HexDigit(s[1]) then
      match FromHex(s[2..])
      case None => None
      case Some(rest) => Some([16 * DigitValue(s[0]) + DigitValue(s[1])] + rest)
    else None
  }

  function StripLeft(s: string): string {
    if s != "" && Blank(s[0]) then StripLeft(s[1..]) else s
  }

  function StripRight(s: string): string {
    if s != "" && Blank(s[|s| - 1]) then StripRight(s[..|s| - 1]) else s
  }

  /** Digits, in groups joined by single underscores. */
  predicate DigitGroups(s: string) {
    && s != "" && HexDigit(s[0])
    && (|s| == 1 || DigitGroups(if s[1] == '_' then s[2..] else s[1..]))
  }

  /** `int(s, 16)` succeeds: outer blanks, a sign, and a prefix are allowed, inner blanks are not. */
  predicate ReadsAsInt(s: string) {
    var t := StripRight(StripLeft(s));
    var u := if t != "" && (t[0] == '+' || t[0] == '-') then t[1..] else t;
    var v := if |u| >= 2 && u[0] == '0' && (u[1] == 'x' || u[1] == 'X') then u[2..] else u;
    DigitGroups(v) || (|v| < |u| && v != "" && v[0] == '_' && DigitGroups(v[1..]))
  }

  /** A lower-case `0x` text of the length, which reads as a number and is not zero. */
  function HexValue(s: string, length: nat): Option<string> {
    var t := Lower(s);
    if |t| == 2 + 2 * length && t[..2] == "0x" && ReadsAsInt(t[2..]) && t != Hex(Zeros(length)) then Some(t) else None
  }

  /** The bytes of such a text. */
  function ParseBytes(s: string, length: nat): Option<Bytes> {
    match HexValue(s, length)
    case None => None
    case Some(t) => FromHex(t[2..])
  }

  // ---------------------------------------------------------------- what was written is read back

  lemma DigitRoundTrip(d: int)
    requires 0 <= d < 16
    ensures HexDigit(DigitChar(d)) && DigitValue(DigitChar(d)) == d && LowerChar(DigitChar(d)) == DigitChar(d)
    ensures !Blank(DigitChar(d))
  {
  }

  lemma ReadDigits(x: char, y: char, rest: string)
    requires HexDigit(x) && HexDigit(y) && !Blank(x) && FromHex(rest).Some?
    ensures FromHex([x, y] + rest) == Some([16 * DigitValue(x) + DigitValue(y)] + FromHex(rest).value)
  {
    assert ([x, y] + rest)[2..] == rest;
  }

  lemma ReadNothing()
    ensures FromHex("") == Some([])
  {
  }

  lemma {:induction false} DigitsRoundTrip(b: Bytes)
    ensures FromHex(Digits(b)) == Some(b)
    ensures |Digits(b)| == 2 * |b|
    ensures forall i :: 0 <= i < |Digits(b)| ==> HexDigit(Digits(b)[i]) && LowerChar(Digits(b)[i]) == Digits(b)[i]
  {
    hide FromHex, DigitChar, DigitValue, HexDigit, Blank, LowerChar;
    ReadNothing();
    if b != [] {
      DigitsRoundTrip(b[1..]);
      DigitRoundTrip(b[0] / 16);
      DigitRoundTrip(b[0] % 16);
      var x, y, rest := DigitChar(b[0] / 16), DigitChar(b[0] % 16), Digits(b[1..]);
      ReadDigits(x, y, rest);
      assert Digits(b) == [x, y] + rest;
      assert b == [b[0]] + b[1..];
      forall i | 0 <= i < |Digits(b)|
        ensures HexDigit(Digits(b)[i]) && LowerChar(Digits(b)[i]) == Digits(b)[i]
      {
        assert i >= 2 ==> Digits(b)[i] == rest[i - 2];
      }
    }
  }

  lemma AllDigitsReadAsInt(s: string)
    requires s != "" && forall i :: 0 <= i < |s| ==> HexDigit(s[i])
    ensures ReadsAsInt(s)
  {
    AllDigitsAreGroups(s);
    assert StripLeft(s) == s && StripRight(s) == s;
    assert |s| >= 2 ==> HexDigit(s[1]);
  }

  lemma {:induction false} AllDigitsAreGroups(s: string)
    requires s != "" && forall i :: 0 <= i < |s| ==> HexDigit(s[i])
    ensures DigitGroups(s)
  {
    if |s| > 1 {
      assert HexDigit(s[1]);
      AllDigitsAreGroups(s[1..]);
    }
  }

  lemma {:induction false} GroupsHaveNoBlank(s: string, k: nat)
    requires k < |s| && DigitGroups(s)
    ensures HexDigit(s[k]) || s[k] == '_'
  {
    if k > 1 {
      if s[1] == '_' {
        GroupsHaveNoBlank(s[2..], k - 2);
      } else {
        GroupsHaveNoBlank(s[1..], k - 1);
      }
    } else if k == 1 && s[1] != '_' {
      assert s[1..][0] == s[1];
    }
  }

  lemma HexTextRoundTrip(b: Bytes)
    requires b != []
    ensures ParseBytes(Hex(b), |b|) == if b == Zeros(|b|) then None else Some(b)
  {
    hide HexDigit, ReadsAsInt, LowerChar;
    DigitsRoundTrip(b);
    DigitsRoundTrip(Zeros(|b|));
    AllDigitsReadAsInt(Digits(b));
    assert LowerChar('0') == '0' && LowerChar('x') == 'x' by { LowerOfPrefix(); }
    assert Lower(Hex(b)) == Hex(b);
    assert Hex(b)[2..] == Digits(b);
    if Hex(b) == Hex(Zeros(|b|)) {
      assert Hex(Zeros(|b|))[2..] == Digits(Zeros(|b|));
    }
  }

  lemma LowerOfPrefix()
    ensures LowerChar('0') == '0' && LowerChar('x') == 'x'
  {
  }

  /** Texts that are lower-case already, well-formed and not zero are their own values. */
  lemma HexValueOfLower(s: string, length: nat)
    requires Lower(s) == s && |s| == 2 + 2 * length && s[..2] == "0x" && s != Hex(Zeros(length))
    ensures HexValue(s, length) == if ReadsAsInt(s[2..]) then Some(s) else None
  {
  }

  function Ones(n: nat): string {
    if n == 0 then "" else "11" + Ones(n - 1)
  }

  lemma {:induction false} OnesAreHex(n: nat)
    ensures FromHex(Ones(n)).Some? && |FromHex(Ones(n)).value| == n && |Ones(n)| == 2 * n
    ensures forall i :: 0 <= i < |Ones(n)| ==> Ones(n)[i] == '1'
  {
    if n > 0 {
      OnesAreHex(n - 1);
      assert Ones(n)[2..] == Ones(n - 1);
    }
  }

  lemma ReadBlank(x: char, rest: string)
    requires Blank(x)
    ensures FromHex([x] + rest) == FromHex(rest)
  {
    assert ([x] + rest)[1..] == rest;
  }

  lemma InnerBlank(s: string, k: nat)
    requires 2 < k < |s| && s[k] == ' ' && s[0] == s[1] == '1' && !Blank(s[|s| - 1])
    ensures !ReadsAsInt(s)
  {
    assert StripLeft(s) == s && StripRight(s) == s;
    if DigitGroups(s) {
      GroupsHaveNoBlank(s, k);
    }
  }

  /** Forty characters that `fromhex` reads and `int` does not: blanks inside. */
  lemma BlanksInside()
    ensures var s := "11" + (" " + (" " + Ones(18)));
      |s| == 40 && FromHex(s).Some? && |FromHex(s).value| == 19 && !ReadsAsInt(s) && Lower(s) == s
  {
    hide FromHex, ReadsAsInt, Ones;
    OnesAreHex(18);
    var s := "11" + (" " + (" " + Ones(18)));
    ReadBlank(' ', Ones(18));
    ReadBlank(' ', " " + Ones(18));
    ReadDigits('1', '1', " " + (" " + Ones(18)));
    InnerBlank(s, 3);
  }
}
