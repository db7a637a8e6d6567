/**
 The strings and integers of JSON text (RFC 8259, sections 6 and 7), as the printer writes them and the parser
 reads them.  A string is a sequence of code points and may hold lone surrogates.
 */
module JsonText {
  import opened Hashing
  import opened Results

  type CodePoint = c: int | 0 <= c < 0x11_0000
  type Text = seq<CodePoint>

  const QUOTE: byte := 34
  const BACKSLASH: byte := 92
  const LETTER_U: byte := 117

  predicate High(c: int) { 0xD800 <= c <= 0xDBFF }
  predicate Low(c: int) { 0xDC00 <= c <= 0xDFFF }

  /** No high surrogate stands directly before a low one. */
  predicate Clean(t: Text) {
    forall i :: 0 <= i < |t| - 1 ==> !(High(t[i]) && Low(t[i + 1]))
  }

  // ---------------------------------------------------------------- printing strings

  function HexDigit(d: int): byte
    requires 0 <= d < 16
  {
    if d < 10 then 48 + d else 87 + d
  }

  /** `\u` and four lower-case hexadecimal digits. */
  function Unit(n: int): Bytes
    requires 0 <= n < 0x1_0000
  {
    [BACKSLASH, LETTER_U, HexDigit(n / 16 / 16 / 16), HexDigit(n / 16 / 16 % 16), HexDigit(n / 16 % 16),
      HexDigit(n % 16)]
  }

  /** The letter after the backslash in a short escape. */
  function ShortEscape(c: CodePoint): Option<byte> {
    if c == 34 then Some(34) else if c == 92 then Some(92)
    else if c == 10 then Some(110) else if c == 13 then Some(114) else if c == 9 then Some(116)
    else if c == 12 then Some(102) else if c == 8 then Some(98)
    else None
  }

  function Escape(c: CodePoint): Bytes {
    if ShortEscape(c).Some? then [BACKSLASH, ShortEscape(c).value]
    else if 32 <= c <= 126 then [c]
    else if c < 0x1_0000 then Unit(c)
    else Unit(0xD800 + (c - 0x1_0000) / 0x400) + Unit(0xDC00 + (c - 0x1_0000) % 0x400)
  }

  /** The escaped text, the closing quote, and what follows. */
  function WriteChars(t: Text, tail: Bytes): Bytes {
    if t == [] then [QUOTE] + tail else Escape(t[0]) + WriteChars(t[1..], tail)
  }

  // ---------------------------------------------------------------- parsing strings

  function HexValue(b: byte): Option<int> {
    if 48 <= b <= 57 then Some(b - 48)
    else if 97 <= b <= 102 then Some(b - 87)
    else if 65 <= b <= 70 then Some(b - 55)
    else None
  }

  function HexPair(a: byte, b: byte): (r: Option<int>)
    ensures r.Some? ==> 0 <= r.value < 256
  {
    if HexValue(a).Some? && HexValue(b).Some? then Some(16 * HexValue(a).value + HexValue(b).value) else None
  }

  /** Reads `\uXXXX` in either case at the front of `s`. */
  function ReadUnit(s: Bytes): (r: Option<int>)
    ensures r.Some? ==> |s| >= 6 && 0 <= r.value < 0x1_0000
  {
    if |s| < 6 || s[0] != BACKSLASH || s[1] != LETTER_U then None
    else
      var high, low := HexPair(s[2], s[3]), HexPair(s[4], s[5]);
      if high.Some? && low.Some? then Some(256 * high.value + low.value) else None
  }

  function ShortMeaning(b: byte): Option<CodePoint> {
    if b == 34 then Some(34) else if b == 92 then Some(92) else if b == 47 then Some(47)
    else if b == 110 then Some(10) else if b == 114 then Some(13) else if b == 116 then Some(9)
    else if b == 102 then Some(12) else if b == 98 then Some(8)
    else None
  }

  predicate LowUnitAhead(s: Bytes) {
    ReadUnit(s).Some? && Low(ReadUnit(s).value)
  }

  /** The next character of a string and how many bytes it takes; a surrogate pair of escapes is joined. */
  function NextChar(s: Bytes): (r: Option<(CodePoint, nat)>)
    ensures r.Some? ==> 1 <= r.value.1 <= |s|
  {
    if s == [] || s[0] < 32 || s[0] >= 128 || s[0] == QUOTE then None
    else if s[0] != BACKSLASH then Some((s[0], 1))
    else if |s| < 2 then None
    else if s[1] != LETTER_U then
      match ShortMeaning(s[1])
      case None => None
      case Some(c) => Some((c, 2))
    else
      match ReadUnit(s)
      case None => None
      case Some(u) =>
        if High(u) && LowUnitAhead(s[6..]) then
          Some((0x1_0000 + (u - 0xD800) * 0x400 + (ReadUnit(s[6..]).value - 0xDC00), 12))
        else Some((u, 6))
  }

  /** Reads up to the closing quote. */
  function ParseChars(s: Bytes): (r: Option<(Text, Bytes)>)
    ensures r.Some? ==> |r.value.1| < |s|
    decreases |s|
  {
    if s == [] then None
    else if s[0] == QUOTE then Some(([], s[1..]))
    else
      match NextChar(s)
      case None => None
      case Some((c, n)) =>
        match ParseChars(s[n..])
        case None => None
        case Some((t, rest)) => Some(([c] + t, rest))
  }

  // ---------------------------------------------------------------- strings round trip

  lemma HexRoundTrip(d: int)
    requires 0 <= d < 16
    ensures HexValue(HexDigit(d)) == Some(d)
  {
  }

  lemma UnitRoundTrip(n: int, rest: Bytes)
    requires 0 <= n < 0x1_0000
    ensures ReadUnit(Unit(n) + rest) == Some(n)
  {
    hide HexDigit, HexValue;
    HexRoundTrip(n / 16 / 16 / 16);
    HexRoundTrip(n / 16 / 16 % 16);
    HexRoundTrip(n / 16 % 16);
    HexRoundTrip(n % 16);
    var s := Unit(n) + rest;
    assert s[2] == HexDigit(n / 16 / 16 / 16) && s[3] == HexDigit(n / 16 / 16 % 16);
    assert s[4] == HexDigit(n / 16 % 16) && s[5] == HexDigit(n % 16);
    HexSplit(n);
  }

  lemma HexSplit(n: int)
    requires 0 <= n < 0x1_0000
    ensures 256 * (16 * (n / 16 / 16 / 16) + n / 16 / 16 % 16) + (16 * (n / 16 % 16) + n % 16) == n
  {
    var q := n / 16;
    var r := q / 16;
    assert n == 16 * q + n % 16 && q == 16 * r + q % 16 && r == 16 * (r / 16) + r % 16;
  }

  lemma EscapeRoundTrip(c: CodePoint, rest: Bytes)
    requires High(c) ==> !LowUnitAhead(rest)
    ensures NextChar(Escape(c) + rest) == Some((c, |Escape(c)|))
    ensures Escape(c)[0] != QUOTE
  {
    hide Unit, ReadUnit;
    if ShortEscape(c).Some? || 32 <= c <= 126 {
    } else if c < 0x1_0000 {
      UnitStep(c, rest);
    } else {
      var u, l := 0xD800 + (c - 0x1_0000) / 0x400, 0xDC00 + (c - 0x1_0000) % 0x400;
      assert Escape(c) + rest == Unit(u) + (Unit(l) + rest);
      UnitStep(u, Unit(l) + rest);
      UnitRoundTrip(l, rest);
      UnitStep(l, rest);
    }
  }

  lemma UnitStep(n: int, rest: Bytes)
    requires 0 <= n < 0x1_0000
    ensures ReadUnit(Unit(n) + rest) == Some(n)
    ensures (Unit(n) + rest)[6..] == rest && |Unit(n)| == 6
    ensures Unit(n)[0] == BACKSLASH && Unit(n)[1] == LETTER_U
  {
    UnitRoundTrip(n, rest);
  }

  lemma NoUnit(c: CodePoint, rest: Bytes)
    requires ShortEscape(c).Some? || 32 <= c <= 126
    ensures ReadUnit(Escape(c) + rest).None?
  {
    var s := Escape(c) + rest;
    assert s[0] == Escape(c)[0];
    assert ShortEscape(c).Some? ==> s[1] == Escape(c)[1] != LETTER_U;
  }

  /** Where a low surrogate's escape is read, the text starts with that surrogate. */
  lemma LowAheadMeans(t: Text, tail: Bytes)
    requires LowUnitAhead(WriteChars(t, tail))
    ensures t != [] && Low(t[0])
  {
    hide Unit, ReadUnit;
    var s := WriteChars(t, tail);
    LowUnitStarts(s);
    assert t != [] ;
    var c := t[0];
    if ShortEscape(c).Some? || 32 <= c <= 126 {
      NoUnit(c, WriteChars(t[1..], tail));
    } else if c < 0x1_0000 {
      UnitStep(c, WriteChars(t[1..], tail));
    } else {
      var u, l := 0xD800 + (c - 0x1_0000) / 0x400, 0xDC00 + (c - 0x1_0000) % 0x400;
      assert s == Unit(u) + (Unit(l) + WriteChars(t[1..], tail));
      UnitStep(u, Unit(l) + WriteChars(t[1..], tail));
    }
  }

  lemma LowUnitStarts(s: Bytes)
    requires ReadUnit(s).Some?
    ensures |s| >= 6 && s[0] == BACKSLASH && s[1] == LETTER_U
  {
  }

  /** A clean string is read back exactly, up to its own closing quote. */
  lemma {:induction false} CharsRoundTrip(t: Text, tail: Bytes)
    requires Clean(t)
    ensures ParseChars(WriteChars(t, tail)) == Some((t, tail))
    decreases |t|
  {
    hide Escape, NextChar, LowUnitAhead;
    if t == [] {
      assert ([QUOTE] + tail)[1..] == tail;
    } else {
      var rest := WriteChars(t[1..], tail);
      if LowUnitAhead(rest) {
        LowAheadMeans(t[1..], tail);
        assert Low(t[1]);
      }
      EscapeRoundTrip(t[0], rest);
      assert (Escape(t[0]) + rest)[|Escape(t[0])|..] == rest;
      CharsRoundTrip(t[1..], tail);
      assert t == [t[0]] + t[1..];
    }
  }

  /** The parser never yields an adjacent pair of surrogates: it joins them. */
  lemma {:induction false} ParsedCharsAreClean(s: Bytes)
    requires ParseChars(s).Some?
    ensures Clean(ParseChars(s).value.0)
    ensures ParseChars(s).value.0 != [] && Low(ParseChars(s).value.0[0]) ==> LowUnitAhead(s)
    decreases |s|
  {
    hide NextChar, LowUnitAhead;
    if s[0] != QUOTE {
      var (c, n) := NextChar(s).value;
      ParsedCharsAreClean(s[n..]);
      NextCharSurrogates(s);
      var t := ParseChars(s[n..]).value.0;
      var all := [c] + t;
      assert forall i :: 1 <= i < |all| ==> all[i] == t[i - 1];
    }
  }

  lemma NextCharSurrogates(s: Bytes)
    requires NextChar(s).Some?
    ensures Low(NextChar(s).value.0) ==> LowUnitAhead(s)
    ensures High(NextChar(s).value.0) ==> !LowUnitAhead(s[NextChar(s).value.1..])
  {
  }

  // ---------------------------------------------------------------- integers

  predicate Digit(b: byte) { 48 <= b <= 57 }

  function Digits(n: nat): (s: Bytes)
    ensures s != []
  {
    if n < 10 then [48 + n] else Digits(n / 10) + [48 + n % 10]
  }

  const MINUS: byte := 45

  function WriteInt(n: int, tail: Bytes): Bytes {
    if n < 0 then [MINUS] + Digits(-n) + tail else Digits(n) + tail
  }

  /** Reads as many digits as there are. */
  function ReadDigits(n: nat, s: Bytes): (r: (nat, Bytes))
    ensures |r.1| <= |s|
    decreases |s|
  {
    if s == [] || !Digit(s[0]) then (n, s) else ReadDigits(10 * n + (s[0] - 48), s[1..])
  }

  /** What may not follow an integer: a digit, or the start of a fraction or exponent. */
  predicate EndsNumber(s: Bytes) {
    s == [] || !(Digit(s[0]) || s[0] == 46 || s[0] == 69 || s[0] == 101)
  }

  /** A number without sign: zero, or digits that do not start with zero, and no fraction or exponent. */
  function ParseNat(s: Bytes): (r: Option<(int, Bytes)>)
    ensures r.Some? ==> 0 <= r.value.0 && |r.value.1| < |s|
  {
    if s == [] || !Digit(s[0]) then None
    else
      var (n, rest) := if s[0] == 48 then (0, s[1..]) else ReadDigits(s[0] - 48, s[1..]);
      if EndsNumber(rest) then Some((n, rest)) else None
  }

  function ParseInt(s: Bytes): (r: Option<(int, Bytes)>)
    ensures r.Some? ==> |r.value.1| < |s|
  {
    if s != [] && s[0] == MINUS then
      match ParseNat(s[1..])
      case None => None
      case Some((n, rest)) => Some((-n, rest))
    else ParseNat(s)
  }

  lemma {:induction false} DigitsRead(n: nat, rest: Bytes)
    ensures ReadDigits(0, Digits(n) + rest) == ReadDigits(n, rest)
  {
    if n < 10 {
      assert ([48 + n] + rest)[1..] == rest;
    } else {
      var last: Bytes := [48 + n % 10];
      assert Digits(n) + rest == Digits(n / 10) + (last + rest);
      DigitsRead(n / 10, last + rest);
      assert (last + rest)[1..] == rest;
    }
  }

  lemma {:induction false} FirstDigit(n: nat)
    ensures Digit(Digits(n)[0])
    ensures Digits(n)[0] == 48 <==> n == 0
  {
    if n >= 10 {
      FirstDigit(n / 10);
    }
  }

  lemma NatRoundTrip(n: nat, rest: Bytes)
    requires EndsNumber(rest)
    ensures ParseNat(Digits(n) + rest) == Some((n, rest))
  {
    FirstDigit(n);
    DigitsRead(n, rest);
    var s := Digits(n) + rest;
    assert s[0] == Digits(n)[0];
    if n == 0 {
      assert s[1..] == rest;
    }
  }

  lemma IntTextRoundTrip(n: int, rest: Bytes)
    requires EndsNumber(rest)
    ensures ParseInt(WriteInt(n, rest)) == Some((n, rest))
  {
    hide Digits, ParseNat;
    if n < 0 {
      NatRoundTrip(-n, rest);
      assert WriteInt(n, rest)[1..] == Digits(-n) + rest;
    } else {
      NatRoundTrip(n, rest);
      FirstDigit(n);
    }
  }
}
