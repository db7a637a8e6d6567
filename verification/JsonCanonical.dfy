/**
 Which of the texts that read back alike is the canonical one: among printable ASCII texts the shortest, and among
 those the last in byte order.  That order prefers lower-case digits after `\u`.
 */
module JsonCanonical {
  import opened Hashing
  import opened Results
  import opened Sorting
  import opened JsonText
  import opened Json
  import opened JsonProofs
  import opened Spelling

  /** Printable ASCII. */
  predicate Plain(s: Bytes) {
    forall i :: 0 <= i < |s| ==> 32 <= s[i] <= 126
  }

  /** `a` is shorter than `b`, or as long and not before it. */
  predicate Preferred(a: Bytes, b: Bytes) {
    |a| < |b| || (|a| == |b| && !Less(a, b))
  }

  lemma PreferredOnce(a: Bytes, b: Bytes)
    ensures Preferred(a, b) || Preferred(b, a)
    ensures Preferred(a, b) && Preferred(b, a) <==> a == b
  {
    LessIsTotal(a, b);
    LessIsTotal(a, a);
  }

  lemma {:induction false} LessJoins(a: Bytes, b: Bytes, c: Bytes, d: Bytes)
    requires |a| == |b| && |c| == |d| && !Less(a, b) && !Less(c, d)
    ensures !Less(a + c, b + d)
    decreases |a|
  {
    if a == [] {
      assert a + c == c && b + d == d;
    } else {
      assert (a + c)[1..] == a[1..] + c && (b + d)[1..] == b[1..] + d;
      if a[0] == b[0] {
        LessJoins(a[1..], b[1..], c, d);
      }
    }
  }

  lemma PreferredJoins(a: Bytes, b: Bytes, c: Bytes, d: Bytes)
    requires Preferred(a, b) && Preferred(c, d)
    ensures Preferred(a + c, b + d)
  {
    hide Less;
    if |a| == |b| && |c| == |d| {
      LessJoins(a, b, c, d);
    }
  }

  /** A text with no byte smaller than the other's does not come before it. */
  lemma {:induction false} GreaterIsNotLess(a: Bytes, b: Bytes)
    requires |a| == |b| && forall i :: 0 <= i < |a| ==> a[i] >= b[i]
    ensures !Less(a, b)
    decreases |a|
  {
    if a != [] {
      assert forall i :: 0 <= i < |a[1..]| ==> a[1..][i] >= b[1..][i];
      GreaterIsNotLess(a[1..], b[1..]);
    }
  }

  lemma SameIsPreferred(a: Bytes)
    ensures Preferred(a, a)
  {
    PreferredOnce(a, a);
  }

  // ---------------------------------------------------------------- characters

  predicate LowerHex(b: byte) { 48 <= b <= 57 || 97 <= b <= 102 }

  /** Of the spellings of one digit the printed one is the greater, and the only one without capitals. */
  lemma DigitIsLower(b: byte)
    requires HexValue(b).Some?
    ensures 0 <= HexValue(b).value < 16 && HexDigit(HexValue(b).value) >= b
    ensures LowerHex(HexDigit(HexValue(b).value)) && (LowerHex(b) ==> HexDigit(HexValue(b).value) == b)
  {
  }

  lemma NibblesOf(a: int, b: int, c: int, d: int)
    requires 0 <= a < 16 && 0 <= b < 16 && 0 <= c < 16 && 0 <= d < 16
    ensures var n := 256 * (16 * a + b) + (16 * c + d);
      0 <= n < 0x1_0000 && n / 16 / 16 / 16 == a && n / 16 / 16 % 16 == b && n / 16 % 16 == c && n % 16 == d
  {
    var n := 256 * (16 * a + b) + (16 * c + d);
    assert n == 16 * (256 * a + 16 * b + c) + d;
    assert n / 16 == 256 * a + 16 * b + c == 16 * (16 * a + b) + c;
  }

  /** The digits of a unit in lower case. */
  predicate UnitIsLower(s: Bytes)
    requires |s| >= 6
  {
    forall i :: 2 <= i < 6 ==> LowerHex(s[i])
  }

  lemma UnitIsPreferred(s: Bytes)
    requires ReadUnit(s).Some?
    ensures Preferred(Unit(ReadUnit(s).value), s[..6]) && |Unit(ReadUnit(s).value)| == 6
    ensures UnitIsLower(Unit(ReadUnit(s).value))
    ensures UnitIsLower(s) ==> Unit(ReadUnit(s).value) == s[..6]
  {
    hide HexValue, HexDigit, LowerHex, Less;
    UnitDigits(s);
    DigitIsLower(s[2]);
    DigitIsLower(s[3]);
    DigitIsLower(s[4]);
    DigitIsLower(s[5]);
    GreaterIsNotLess(Unit(ReadUnit(s).value), s[..6]);
  }

  lemma UnitDigits(s: Bytes)
    requires ReadUnit(s).Some?
    ensures forall i :: 2 <= i < 6 ==> HexValue(s[i]).Some? && 0 <= HexValue(s[i]).value < 16
    ensures Unit(ReadUnit(s).value) == [s[0], s[1], HexDigit(HexValue(s[2]).value), HexDigit(HexValue(s[3]).value),
                                        HexDigit(HexValue(s[4]).value), HexDigit(HexValue(s[5]).value)]
  {
    DigitIsLower(s[2]);
    DigitIsLower(s[3]);
    DigitIsLower(s[4]);
    DigitIsLower(s[5]);
    NibblesOf(HexValue(s[2]).value, HexValue(s[3]).value, HexValue(s[4]).value, HexValue(s[5]).value);
  }

  /** The digits after the backslash and `u` at the front of `s`, one unit or two, are in lower case. */
  predicate LowerAhead(s: Bytes, n: nat)
    requires n <= |s|
  {
    (n >= 6 ==> UnitIsLower(s)) && (n >= 12 ==> UnitIsLower(s[6..]))
  }

  lemma EscapeIsPreferred(s: Bytes)
    requires NextChar(s).Some? && Plain(s)
    ensures var (c, n) := NextChar(s).value;
      && Preferred(Escape(c), s[..n])
      && (|Escape(c)| == n && LowerAhead(s, n) ==> Escape(c) == s[..n])
  {
    hide Unit, ReadUnit, Less, LowerHex;
    var (c, n) := NextChar(s).value;
    if n == 1 || n == 2 {
      assert |Escape(c)| == n ==> Escape(c) == s[..n];
      SameIsPreferred(s[..n]);
    } else if n == 6 {
      UnitIsPreferred(s);
    } else {
      var u, l := ReadUnit(s).value, ReadUnit(s[6..]).value;
      UnitIsPreferred(s);
      UnitIsPreferred(s[6..]);
      PreferredJoins(Unit(u), s[..6], Unit(l), s[6..][..6]);
      assert s[..12] == s[..6] + s[6..][..6];
      assert Escape(c) == Unit(u) + Unit(l);
    }
  }

  // ---------------------------------------------------------------- strings

  lemma {:induction false} CharsArePreferred(s: Bytes, tail: Bytes)
    requires ParseChars(s).Some? && Plain(s) && Preferred(tail, ParseChars(s).value.1)
    ensures Preferred(WriteChars(ParseChars(s).value.0, tail), s)
    decreases |s|
  {
    hide NextChar, Escape, Preferred;
    if s[0] == QUOTE {
      SameIsPreferred([QUOTE]);
      PreferredJoins([QUOTE], [QUOTE], tail, s[1..]);
      assert s == [QUOTE] + s[1..];
    } else {
      var (c, n) := NextChar(s).value;
      var t := ParseChars(s[n..]).value.0;
      CharsArePreferred(s[n..], tail);
      EscapeIsPreferred(s);
      PreferredJoins(Escape(c), s[..n], WriteChars(t, tail), s[n..]);
      assert s == s[..n] + s[n..] && ([c] + t)[1..] == t;
    }
  }

  /** The digits of every unit up to the closing quote are in lower case. */
  predicate LowerUnits(s: Bytes)
    decreases |s|
  {
    s == [] || s[0] == QUOTE || NextChar(s).None?
    || (LowerAhead(s, NextChar(s).value.1) && LowerUnits(s[NextChar(s).value.1..]))
  }

  lemma EscapeIsPlain(c: CodePoint)
    ensures Plain(Escape(c)) && Escape(c) != []
  {
  }

  lemma {:induction false} WrittenIsPlain(t: Text, tail: Bytes)
    requires Plain(tail)
    ensures Plain(WriteChars(t, tail))
  {
    hide Escape;
    if t != [] {
      EscapeIsPlain(t[0]);
      WrittenIsPlain(t[1..], tail);
    }
  }

  lemma HexIsLower(d: int)
    requires 0 <= d < 16
    ensures LowerHex(HexDigit(d))
  {
  }

  lemma UnitIsWrittenLower(n: int, rest: Bytes)
    requires 0 <= n < 0x1_0000
    ensures |Unit(n)| == 6 && UnitIsLower(Unit(n) + rest) && (Unit(n) + rest)[6..] == rest
  {
    hide HexDigit, LowerHex;
    HexIsLower(n / 16 / 16 / 16);
    HexIsLower(n / 16 / 16 % 16);
    HexIsLower(n / 16 % 16);
    HexIsLower(n % 16);
    assert forall i :: 0 <= i < 6 ==> (Unit(n) + rest)[i] == Unit(n)[i];
  }

  lemma EscapeIsLower(c: CodePoint, rest: Bytes)
    ensures LowerAhead(Escape(c) + rest, |Escape(c)|)
  {
    hide Unit, UnitIsLower;
    if ShortEscape(c).Some? || 32 <= c <= 126 {
    } else if c < 0x1_0000 {
      UnitIsWrittenLower(c, rest);
    } else {
      var u, l := 0xD800 + (c - 0x1_0000) / 0x400, 0xDC00 + (c - 0x1_0000) % 0x400;
      assert Escape(c) + rest == Unit(u) + (Unit(l) + rest);
      UnitIsWrittenLower(u, Unit(l) + rest);
      UnitIsWrittenLower(l, rest);
    }
  }

  lemma {:induction false} WrittenIsLower(t: Text, tail: Bytes)
    requires Clean(t)
    ensures LowerUnits(WriteChars(t, tail))
    decreases |t|
  {
    hide Escape, NextChar, LowUnitAhead, LowerAhead;
    if t != [] {
      var rest := WriteChars(t[1..], tail);
      if LowUnitAhead(rest) {
        LowAheadMeans(t[1..], tail);
        assert Low(t[1]);
      }
      EscapeRoundTrip(t[0], rest);
      EscapeIsLower(t[0], rest);
      assert (Escape(t[0]) + rest)[|Escape(t[0])|..] == rest;
      WrittenIsLower(t[1..], tail);
    }
  }

  /** A printable text in lower case that is no longer than the written one is the written one. */
  lemma {:induction false} ShortestLowerIsWritten(s: Bytes)
    requires ParseChars(s).Some? && Plain(s) && LowerUnits(s)
    requires |s| <= |WriteChars(ParseChars(s).value.0, ParseChars(s).value.1)|
    ensures s == WriteChars(ParseChars(s).value.0, ParseChars(s).value.1)
    decreases |s|
  {
    hide NextChar, Escape, LowerAhead, Less;
    var (t, tail) := ParseChars(s).value;
    if s[0] != QUOTE {
      var (c, n) := NextChar(s).value;
      var rest := ParseChars(s[n..]).value.0;
      assert t[1..] == rest;
      EscapeIsPreferred(s);
      SameIsPreferred(tail);
      CharsArePreferred(s[n..], tail);
      ShortestLowerIsWritten(s[n..]);
      assert s == s[..n] + s[n..];
    }
  }

  /** `s` is read as the string `t` up to its closing quote, before `tail`. */
  predicate Spells(s: Bytes, t: Text, tail: Bytes) {
    ParseChars(s) == Some((t, tail)) && Plain(s)
  }

  /**
   Of the printable texts that are read as a clean string exactly one is written: the shortest one whose hexadecimal
   digits are in lower case.
   */
  lemma WrittenIffShortestLower(s: Bytes, t: Text, tail: Bytes)
    requires Clean(t) && Plain(tail)
    ensures s == WriteChars(t, tail) <==>
              Spells(s, t, tail) && LowerUnits(s) && forall other :: Spells(other, t, tail) ==> |s| <= |other|
  {
    hide ParseChars, WriteChars, LowerUnits, Less, Plain, Clean;
    var written := WriteChars(t, tail);
    CharsRoundTrip(t, tail);
    WrittenIsPlain(t, tail);
    WrittenIsLower(t, tail);
    SameIsPreferred(tail);
    forall other | Spells(other, t, tail)
      ensures |written| <= |other|
    {
      CharsArePreferred(other, tail);
    }
    if Spells(s, t, tail) && LowerUnits(s) && |s| <= |written| {
      ShortestLowerIsWritten(s);
    }
  }

  // ---------------------------------------------------------------- integers

  lemma {:induction false} ReadDigitsKeeps(n: nat, s: Bytes)
    requires n > 0
    ensures Digits(n) + s == Digits(ReadDigits(n, s).0) + ReadDigits(n, s).1
    decreases |s|
  {
    if s != [] && Digit(s[0]) {
      var m: nat := 10 * n + (s[0] - 48);
      ReadDigitsKeeps(m, s[1..]);
      assert m / 10 == n && m % 10 == s[0] - 48;
      assert Digits(m) == Digits(n) + [s[0]];
      assert Digits(n) + s == Digits(n) + [s[0]] + s[1..];
    }
  }

  lemma NatIsWritten(s: Bytes)
    requires ParseNat(s).Some?
    ensures s == Digits(ParseNat(s).value.0) + ParseNat(s).value.1
  {
    if s[0] == 48 {
      assert s == [48] + s[1..];
    } else {
      ReadDigitsKeeps(s[0] - 48, s[1..]);
      assert s == Digits(s[0] - 48) + s[1..];
    }
  }

  lemma IntIsPreferred(s: Bytes, tail: Bytes)
    requires ParseInt(s).Some? && Preferred(tail, ParseInt(s).value.1)
    ensures Preferred(WriteInt(ParseInt(s).value.0, tail), s)
  {
    hide Digits, Less, ParseNat;
    var (n, rest) := ParseInt(s).value;
    if s[0] == MINUS {
      NatIsWritten(s[1..]);
      assert s == [MINUS] + Digits(-n) + rest;
      SameIsPreferred([MINUS] + Digits(-n));
      PreferredJoins([MINUS] + Digits(-n), [MINUS] + Digits(-n), tail, rest);
      NatNotShorter(s);
    } else {
      NatIsWritten(s);
      SameIsPreferred(Digits(n));
      PreferredJoins(Digits(n), Digits(n), tail, rest);
    }
  }

  /** Minus zero is written without its sign. */
  lemma NatNotShorter(s: Bytes)
    requires s != [] && s[0] == MINUS && ParseNat(s[1..]).Some?
    ensures ParseNat(s[1..]).value.0 == 0 ==> s == [MINUS] + Digits(0) + ParseNat(s[1..]).value.1
  {
    hide Digits, ParseNat;
    NatIsWritten(s[1..]);
  }

  // ---------------------------------------------------------------- values

  lemma {:induction false} SkipIsSuffix(s: Bytes)
    ensures Plain(s) ==> Plain(Skip(s))
    ensures Skip(s) == s || |Skip(s)| < |s|
  {
    if s != [] && Blank(s[0]) {
      SkipIsSuffix(s[1..]);
    }
  }

  /** Leaving out white space only helps. */
  lemma SkippedIsPreferred(a: Bytes, s: Bytes)
    requires Preferred(a, Skip(s))
    ensures Preferred(a, s)
  {
    hide Skip, Less;
    SkipIsSuffix(s);
  }

  lemma BytePrefers(b: byte, a: Bytes, s: Bytes)
    requires s != [] && s[0] == b && Preferred(a, s[1..])
    ensures Preferred([b] + a, s)
  {
    hide Preferred;
    SameIsPreferred([b]);
    PreferredJoins([b], [b], a, s[1..]);
    assert s == [b] + s[1..];
  }

  lemma WordIsPreferred(word: Bytes, v: Json, s: Bytes, tail: Bytes)
    requires word != [] && ParseWord(word, v, s).Some? && Preferred(tail, ParseWord(word, v, s).value.1)
    ensures Preferred(word + tail, s)
  {
    hide Preferred;
    SameIsPreferred(word);
    PreferredJoins(word, word, tail, s[|word|..]);
    assert s == word + s[|word|..];
  }

  lemma ParsedRestIsPlain(s: Bytes)
    requires Plain(s)
    ensures ParseChars(s).Some? ==> Plain(ParseChars(s).value.1)
    decreases |s|
  {
    hide NextChar;
    if ParseChars(s).Some? && s[0] != QUOTE {
      ParsedRestIsPlain(s[NextChar(s).value.1..]);
    }
  }

  lemma NumRestIsPlain(s: Bytes)
    requires ParseInt(s).Some? && Plain(s)
    ensures Plain(ParseInt(s).value.1)
  {
    hide ParseNat, Digits;
    NatIsWritten(if s[0] == MINUS then s[1..] else s);
    var (n, rest) := ParseInt(s).value;
    assert exists k :: 0 <= k <= |s| && rest == s[k..] by {
      assert rest == s[|s| - |rest|..];
    }
  }

  /** Every printable text of a value is at most as good as the printed one, whatever follows. */
  lemma {:induction false} ValueIsPreferred(text: Bytes, tail: Bytes)
    requires ParseValue(text).Some? && Plain(text) && Preferred(tail, ParseValue(text).value.1)
    ensures Preferred(Write(ParseValue(text).value.0, tail), text) && Plain(ParseValue(text).value.1)
    decreases |text|, 2
  {
    hide Preferred, ParseItems, ParseMembers, ParseChars, ParseInt, WriteChars, WriteInt, Skip, WriteItems,
      WriteMembers;
    var s := Skip(text);
    SkipIsSuffix(text);
    ParseSkips(text);
    var (v, rest) := ParseValue(text).value;
    if s[0] == QUOTE {
      CharsArePreferred(s[1..], tail);
      ParsedRestIsPlain(s[1..]);
      BytePrefers(QUOTE, WriteChars(v.t, tail), s);
    } else if s[0] == OPEN_BRACKET {
      ArrayIsPreferred(s, tail);
    } else if s[0] == OPEN_BRACE {
      ObjectIsPreferred(s, tail);
    } else if s[0] == NULL_TEXT[0] {
      WordIsPreferred(NULL_TEXT, Null, s, tail);
    } else if s[0] == TRUE_TEXT[0] {
      WordIsPreferred(TRUE_TEXT, Bool(true), s, tail);
    } else if s[0] == FALSE_TEXT[0] {
      WordIsPreferred(FALSE_TEXT, Bool(false), s, tail);
    } else {
      IntIsPreferred(s, tail);
      NumRestIsPlain(s);
    }
    SkippedIsPreferred(Write(v, tail), text);
  }

  lemma ParseSkips(text: Bytes)
    ensures ParseValue(Skip(text)) == ParseValue(text)
  {
    hide ParseItems, ParseMembers, ParseChars, ParseInt, ParseWord;
    SkipTwice(text);
  }

  lemma SkipTwice(s: Bytes)
    ensures Skip(Skip(s)) == Skip(s)
  {
  }

  lemma {:induction false} ArrayIsPreferred(s: Bytes, tail: Bytes)
    requires ParseValue(s).Some? && Plain(s) && Preferred(tail, ParseValue(s).value.1)
    requires s != [] && s[0] == OPEN_BRACKET
    ensures Preferred(Write(ParseValue(s).value.0, tail), s) && Plain(ParseValue(s).value.1)
    decreases |s|, 1
  {
    hide Preferred, ParseItems, WriteItems;
    var inner := Skip(s[1..]);
    SkipIsSuffix(s[1..]);
    if inner != [] && inner[0] == CLOSE_BRACKET {
      BytePrefers(CLOSE_BRACKET, tail, inner);
      SkippedIsPreferred([CLOSE_BRACKET] + tail, s[1..]);
      BytePrefers(OPEN_BRACKET, [CLOSE_BRACKET] + tail, s);
    } else {
      var items := ParseItems(inner).value.0;
      ItemsArePreferred(inner, tail);
      SkippedIsPreferred(WriteItems(items, tail), s[1..]);
      BytePrefers(OPEN_BRACKET, WriteItems(items, tail), s);
    }
  }

  lemma {:induction false} ObjectIsPreferred(s: Bytes, tail: Bytes)
    requires ParseValue(s).Some? && Plain(s) && Preferred(tail, ParseValue(s).value.1)
    requires s != [] && s[0] == OPEN_BRACE
    ensures Preferred(Write(ParseValue(s).value.0, tail), s) && Plain(ParseValue(s).value.1)
    decreases |s|, 1
  {
    hide Preferred, ParseMembers, WriteMembers;
    var inner := Skip(s[1..]);
    SkipIsSuffix(s[1..]);
    if inner != [] && inner[0] == CLOSE_BRACE {
      BytePrefers(CLOSE_BRACE, tail, inner);
      SkippedIsPreferred([CLOSE_BRACE] + tail, s[1..]);
      BytePrefers(OPEN_BRACE, [CLOSE_BRACE] + tail, s);
    } else {
      var ms := ParseMembers(inner).value.0;
      MembersArePreferred(inner, tail);
      SkippedIsPreferred(WriteMembers(ms, tail), s[1..]);
      BytePrefers(OPEN_BRACE, WriteMembers(ms, tail), s);
    }
  }

  lemma {:induction false} ItemsArePreferred(s: Bytes, tail: Bytes)
    requires ParseItems(s).Some? && Plain(s) && Preferred(tail, ParseItems(s).value.1)
    ensures ParseItems(s).value.0.Cons?
    ensures Preferred(WriteItems(ParseItems(s).value.0, tail), s) && Plain(ParseItems(s).value.1)
    decreases |s|, 4
  {
    hide Preferred, ParseValue, Write, Skip;
    var (v, rest) := ParseValue(s).value;
    var next := Skip(rest);
    SkipIsSuffix(rest);
    ValueRestIsPlain(s);
    if next[0] == CLOSE_BRACKET {
      BytePrefers(CLOSE_BRACKET, tail, next);
      SkippedIsPreferred([CLOSE_BRACKET] + tail, rest);
      ValueIsPreferred(s, [CLOSE_BRACKET] + tail);
    } else {
      var items := ParseItems(next[1..]).value.0;
      ItemsArePreferred(next[1..], tail);
      BytePrefers(COMMA, WriteItems(items, tail), next);
      SkippedIsPreferred([COMMA] + WriteItems(items, tail), rest);
      ValueIsPreferred(s, [COMMA] + WriteItems(items, tail));
    }
  }

  lemma {:induction false} ValueRestIsPlain(s: Bytes)
    requires ParseValue(s).Some? && Plain(s)
    ensures Plain(ParseValue(s).value.1)
    decreases |s|, 3
  {
    hide ParseValue;
    SameIsPreferred(ParseValue(s).value.1);
    ValueIsPreferred(s, ParseValue(s).value.1);
  }

  lemma {:induction false} MembersArePreferred(s: Bytes, tail: Bytes)
    requires ParseMembers(s).Some? && Plain(s) && Preferred(tail, ParseMembers(s).value.1)
    ensures ParseMembers(s).value.0.Member?
    ensures Preferred(WriteMembers(ParseMembers(s).value.0, tail), s) && Plain(ParseMembers(s).value.1)
    decreases |s|, 4
  {
    hide Preferred, ParseValue, Write, Skip, ParseKey, WriteChars;
    var (key, body) := ParseKey(s).value;
    var (v, rest) := ParseValue(body).value;
    var next := Skip(rest);
    KeyRestIsPlain(s);
    ValueRestIsPlain(body);
    SkipIsSuffix(rest);
    if next[0] == CLOSE_BRACE {
      BytePrefers(CLOSE_BRACE, tail, next);
      SkippedIsPreferred([CLOSE_BRACE] + tail, rest);
      ValueIsPreferred(body, [CLOSE_BRACE] + tail);
      KeyIsPreferred(s, Write(v, [CLOSE_BRACE] + tail));
    } else {
      var ms := ParseMembers(next[1..]).value.0;
      MembersArePreferred(next[1..], tail);
      BytePrefers(COMMA, WriteMembers(ms, tail), next);
      SkippedIsPreferred([COMMA] + WriteMembers(ms, tail), rest);
      ValueIsPreferred(body, [COMMA] + WriteMembers(ms, tail));
      KeyIsPreferred(s, Write(v, [COMMA] + WriteMembers(ms, tail)));
    }
  }

  lemma KeyRestIsPlain(s: Bytes)
    requires ParseKey(s).Some? && Plain(s)
    ensures Plain(ParseKey(s).value.1)
  {
    hide ParseChars, Skip;
    SkipIsSuffix(s);
    ParsedRestIsPlain(Skip(s)[1..]);
    SkipIsSuffix(ParseChars(Skip(s)[1..]).value.1);
  }

  lemma KeyIsPreferred(s: Bytes, tail: Bytes)
    requires ParseKey(s).Some? && Plain(s) && Preferred(tail, ParseKey(s).value.1)
    ensures Preferred([QUOTE] + WriteChars(ParseKey(s).value.0, [COLON] + tail), s)
  {
    hide ParseChars, Skip, Preferred, WriteChars;
    var t := Skip(s);
    SkipIsSuffix(s);
    var (key, rest) := ParseChars(t[1..]).value;
    BytePrefers(COLON, tail, Skip(rest));
    SkippedIsPreferred([COLON] + tail, rest);
    CharsArePreferred(t[1..], [COLON] + tail);
    BytePrefers(QUOTE, WriteChars(key, [COLON] + tail), t);
    SkippedIsPreferred([QUOTE] + WriteChars(key, [COLON] + tail), s);
  }

  lemma WordsArePlain()
    ensures Plain(NULL_TEXT) && Plain(TRUE_TEXT) && Plain(FALSE_TEXT)
  {
  }

  lemma {:induction false} DigitsArePlain(n: nat)
    ensures Plain(Digits(n))
  {
    if n >= 10 {
      DigitsArePlain(n / 10);
    }
  }

  lemma {:induction false} ValueIsPlain(v: Json, tail: Bytes)
    requires Plain(tail)
    ensures Plain(Write(v, tail))
    decreases v
  {
    hide WriteChars, Digits, NULL_TEXT, TRUE_TEXT, FALSE_TEXT;
    WordsArePlain();
    match v
    case Num(n) => DigitsArePlain(if n < 0 then -n else n);
    case Str(t) => WrittenIsPlain(t, tail);
    case Arr(items) =>
      if items.Cons? {
        ItemsArePlain(items, tail);
      }
    case Obj(ms) =>
      if ms.Member? {
        MembersArePlain(ms, tail);
      }
    case _ =>
  }

  lemma {:induction false} ItemsArePlain(items: Items, tail: Bytes)
    requires items.Cons? && Plain(tail)
    ensures Plain(WriteItems(items, tail))
    decreases items
  {
    hide Write;
    if items.tail.Cons? {
      ItemsArePlain(items.tail, tail);
      ValueIsPlain(items.head, [COMMA] + WriteItems(items.tail, tail));
    } else {
      ValueIsPlain(items.head, [CLOSE_BRACKET] + tail);
    }
  }

  lemma {:induction false} MembersArePlain(ms: Members, tail: Bytes)
    requires ms.Member? && Plain(tail)
    ensures Plain(WriteMembers(ms, tail))
    decreases ms
  {
    hide Write, WriteChars;
    if ms.rest.Member? {
      MembersArePlain(ms.rest, tail);
      ValueIsPlain(ms.value, [COMMA] + WriteMembers(ms.rest, tail));
      WrittenIsPlain(ms.key, [COLON] + Write(ms.value, [COMMA] + WriteMembers(ms.rest, tail)));
    } else {
      ValueIsPlain(ms.value, [CLOSE_BRACE] + tail);
      WrittenIsPlain(ms.key, [COLON] + Write(ms.value, [CLOSE_BRACE] + tail));
    }
  }

  // ---------------------------------------------------------------- documents

  /** A printable text that is read as `v`. */
  predicate Reads(raw: Bytes, v: Json) {
    Plain(raw) && ParseDocument(raw) == Some(v)
  }

  /** The printable text that is read as `v` and preferred to every other. */
  ghost predicate Best(raw: Bytes, v: Json) {
    Reads(raw, v) && forall other :: Reads(other, v) ==> Preferred(raw, other)
  }

  lemma DocumentIsPreferred(raw: Bytes, v: Json)
    requires Reads(raw, v)
    ensures Preferred(Write(v, []), raw)
  {
    hide ParseValue, Write, Less;
    var rest := ParseValue(raw).value.1;
    assert rest == [] ==> Preferred([], rest) by { SameIsPreferred([]); }
    ValueIsPreferred(raw, []);
  }

  /** The print of a clean value is the preferred text that is read as its ordered form, and no other text is. */
  lemma PrintedIffBest(raw: Bytes, v: Json)
    requires Proper(v) && CleanValue(v)
    ensures raw == Print(v) <==> Best(raw, Norm(v))
  {
    hide ParseDocument, Write, Proper, CleanValue, Norm, Preferred, Plain;
    PrintParses(v);
    assert Plain([]) by { NothingIsPlain(); }
    ValueIsPlain(Norm(v), []);
    forall other | Reads(other, Norm(v))
      ensures Preferred(Print(v), other)
    {
      DocumentIsPreferred(other, Norm(v));
    }
    if Best(raw, Norm(v)) {
      PreferredOnce(raw, Print(v));
    }
  }

  lemma NothingIsPlain()
    ensures Plain([])
  {
  }

  /** The strict parser accepts exactly the preferred texts of clean ordered objects. */
  lemma CanonicalIffBest(raw: Bytes, v: Json)
    ensures Canonical(raw, v) <==> v.Obj? && Ordered(v) && CleanValue(v) && Best(raw, v)
  {
    hide Print, Proper, CleanValue, Norm, Ordered, Best;
    if Ordered(v) && CleanValue(v) {
      OrderedIsNorm(v);
      PrintedIffBest(raw, v);
    }
  }

  // ---------------------------------------------------------------- the letters of the grammar

  lemma WordsAreWritten()
    ensures NULL_TEXT == Ascii("null") && TRUE_TEXT == Ascii("true") && FALSE_TEXT == Ascii("false")
  {
  }

  lemma SignsAreWritten()
    ensures [OPEN_BRACKET] == Ascii("[") && [CLOSE_BRACKET] == Ascii("]") && [OPEN_BRACE] == Ascii("{")
    ensures [CLOSE_BRACE] == Ascii("}") && [COMMA] == Ascii(",") && [COLON] == Ascii(":")
    ensures [QUOTE] == Ascii("\"") && [BACKSLASH] == Ascii("\\") && [MINUS] == Ascii("-")
  {
  }

  /** Words and empty structures are those of RFC 8259, sections 2 to 7. */
  lemma WordsMean(n: int, tail: Bytes)
    ensures Write(Null, tail) == Ascii("null") + tail
    ensures Write(Bool(true), tail) == Ascii("true") + tail && Write(Bool(false), tail) == Ascii("false") + tail
    ensures Write(Arr(Nil), tail) == Ascii("[]") + tail && Write(Obj(End), tail) == Ascii("{}") + tail
    ensures Write(Str([]), tail) == Ascii("\"\"") + tail
    ensures n > 0 ==> Write(Num(-n), tail) == Ascii("-") + Write(Num(n), tail)
  {
    hide Digits, NULL_TEXT, TRUE_TEXT, FALSE_TEXT;
    WordsAreWritten();
    SignsAreWritten();
    assert Ascii("[]") == [OPEN_BRACKET] + [CLOSE_BRACKET] && Ascii("{}") == [OPEN_BRACE] + [CLOSE_BRACE];
    assert Ascii("\"\"") == [QUOTE] + [QUOTE];
  }

  /** The values of an array stand between brackets, with commas between. */
  lemma ArrayMeans(a: Json, b: Json, tail: Bytes)
    ensures Write(Arr(Cons(a, Cons(b, Nil))), tail)
         == Ascii("[") + Write(a, Ascii(",") + Write(b, Ascii("]") + tail))
  {
    SignsAreWritten();
    assert WriteItems(Cons(b, Nil), tail) == Write(b, [CLOSE_BRACKET] + tail);
  }

  /** The members of an object stand between braces, with colons behind the keys and commas between. */
  lemma ObjectMeans(a: Json, key: Text, b: Json, key': Text, tail: Bytes)
    ensures Write(Obj(Member(key, a, Member(key', b, End))), tail)
         == Ascii("{") + Write(Str(key), Ascii(":") + Write(a, Ascii(",")
            + Write(Str(key'), Ascii(":") + Write(b, Ascii("}") + tail))))
  {
    hide WriteChars;
    SignsAreWritten();
    assert WriteMembers(Member(key', b, End), tail)
        == [QUOTE] + WriteChars(key', [COLON] + Write(b, [CLOSE_BRACE] + tail));
  }

  /** `\u` and four hexadecimal digits, in either case, are read as the number that they write, and nothing else is. */
  lemma UnitIsRead(s: Bytes, a: int, b: int, c: int, d: int)
    requires |s| >= 6 && s[..2] == Ascii("\\u")
    requires WritesDigit(s[2], a) && WritesDigit(s[3], b) && WritesDigit(s[4], c) && WritesDigit(s[5], d)
    ensures ReadUnit(s) == Some(0x1000 * a + 0x100 * b + 0x10 * c + d)
  {
    hide HexValue, WritesDigit;
    DigitIsRead(s[2], a);
    DigitIsRead(s[3], b);
    DigitIsRead(s[4], c);
    DigitIsRead(s[5], d);
    assert s[0] == s[..2][0] && s[1] == s[..2][1];
  }

  lemma DigitIsRead(b: byte, d: int)
    ensures WritesDigit(b, d) <==> HexValue(b) == Some(d) && 0 <= d < 16
  {
  }

  lemma ReadIsUnit(s: Bytes)
    requires ReadUnit(s).Some?
    ensures |s| >= 6 && s[..2] == Ascii("\\u")
    ensures forall i :: 2 <= i < 6 ==> exists d :: WritesDigit(s[i], d)
  {
    hide WritesDigit;
    DigitIsLower(s[2]);
    DigitIsLower(s[3]);
    DigitIsLower(s[4]);
    DigitIsLower(s[5]);
    forall i | 2 <= i < 6
      ensures exists d :: WritesDigit(s[i], d)
    {
      DigitIsRead(s[i], HexValue(s[i]).value);
    }
  }

  /** Outside escapes a string holds ASCII characters without controls, quotes and backslashes. */
  lemma RawCharacters(s: Bytes)
    requires s != [] && s[0] != BACKSLASH
    ensures NextChar(s) == (if 32 <= s[0] <= 127 && [s[0]] != Ascii("\"") then Some((s[0], 1)) else None)
  {
    assert Ascii("\"") == [QUOTE];
    assert [s[0]] != Ascii("\"") <==> s[0] != QUOTE by {
      if [s[0]] == [QUOTE] {
        assert [s[0]][0] == QUOTE;
      }
    }
  }

  /** White space is space, tab, line feed and carriage return. */
  lemma BlankMeans(b: byte)
    ensures Blank(b) <==> b in Ascii(" \t\n\r")
  {
    var blanks: Bytes := [32, 9, 10, 13];
    assert Ascii(" \t\n\r") == blanks;
  }

  /** A number may not be followed by a digit, a point or an exponent. */
  lemma NumbersEnd(b: byte, s: Bytes)
    ensures EndsNumber([]) && (EndsNumber([b] + s) <==> b !in Ascii("0123456789.eE"))
  {
    var ends: Bytes := [48, 49, 50, 51, 52, 53, 54, 55, 56, 57, 46, 101, 69];
    assert Ascii("0123456789.eE") == ends;
    assert b in ends <==> 48 <= b <= 57 || b == 46 || b == 101 || b == 69;
    var t := [b] + s;
    assert t != [] && t[0] == b && (Digit(b) <==> 48 <= b <= 57);
    assert EndsNumber(t) <==> b !in ends;
  }
}
