/**
 What the readers of hexadecimal text accept, by example and by grammar.
 */
module HexGrammar {
  import opened Hashing
  import opened Results
  import opened HexText
  import opened Spelling

  /** A digit's value is its place in the lower-case or the upper-case list. */
  lemma DigitMeans(c: char, d: int)
    ensures HexDigit(c) && DigitValue(c) == d <==> 0 <= d < 16 && (c == LOWER_DIGITS[d] || c == UPPER_DIGITS[d])
  {
  }

  /** Capitals become small letters, and nothing else changes. */
  lemma LowerMeans(c: char, k: nat)
    ensures k < 26 ==> LowerChar("ABCDEFGHIJKLMNOPQRSTUVWXYZ"[k]) == "abcdefghijklmnopqrstuvwxyz"[k]
    ensures c !in "ABCDEFGHIJKLMNOPQRSTUVWXYZ" ==> LowerChar(c) == c
  {
    assert k < 26 ==> "ABCDEFGHIJKLMNOPQRSTUVWXYZ"[k] == 'A' + k as char;
    assert k < 26 ==> "abcdefghijklmnopqrstuvwxyz"[k] == 'a' + k as char;
    if 'A' <= c <= 'Z' {
      assert "ABCDEFGHIJKLMNOPQRSTUVWXYZ"[(c - 'A') as int] == c;
    }
  }

  /** Space, tab, line feed, vertical tab, form feed and carriage return. */
  lemma BlankMeans(c: char)
    ensures Blank(c) <==> c as int in {32, 9, 10, 11, 12, 13}
  {
  }

  // ---------------------------------------------------------------- numerals

  /** Digits with single underscores between them. */
  predicate Grouped(s: string) {
    && s != "" && HexDigit(s[0]) && HexDigit(s[|s| - 1])
    && (forall i :: 0 <= i < |s| ==> HexDigit(s[i]) || s[i] == '_')
    && (forall i :: 0 <= i < |s| - 1 ==> s[i] != '_' || s[i + 1] != '_')
  }

  lemma {:induction false} GroupsMean(s: string)
    ensures DigitGroups(s) <==> Grouped(s)
  {
    hide HexDigit;
    UnderscoreIsNoDigit();
    if s != "" && HexDigit(s[0]) && |s| > 1 {
      var k := if s[1] == '_' then 2 else 1;
      var rest := s[k..];
      GroupsMean(rest);
      assert forall i :: 0 <= i < |rest| ==> rest[i] == s[i + k];
      if Grouped(s) {
        forall i | 0 <= i < |rest| - 1
          ensures rest[i] != '_' || rest[i + 1] != '_'
        {
          assert rest[i] == s[i + k] && rest[i + 1] == s[i + k + 1];
        }
      }
      if Grouped(rest) {
        forall i | 0 <= i < |s|
          ensures HexDigit(s[i]) || s[i] == '_'
        {
          assert i >= k ==> s[i] == rest[i - k];
        }
        forall i | 0 <= i < |s| - 1
          ensures s[i] != '_' || s[i + 1] != '_'
        {
          assert i >= k ==> s[i] == rest[i - k] && s[i + 1] == rest[i + 1 - k];
        }
      }
    }
  }

  lemma UnderscoreIsNoDigit()
    ensures !HexDigit('_')
  {
  }

  predicate AllBlank(s: string) {
    forall i :: 0 <= i < |s| ==> Blank(s[i])
  }

  /** Blanks, a sign, a prefix, grouped digits, and blanks; behind a prefix an underscore may stand first. */
  predicate Numeral(s: string, before: string, sign: string, prefix: string, digits: string, after: string) {
    && s == before + sign + prefix + digits + after && AllBlank(before) && AllBlank(after)
    && sign in {"", "+", "-"} && prefix in {"", "0x", "0X"}
    && (Grouped(digits) || (prefix != "" && digits != "" && digits[0] == '_' && Grouped(digits[1..])))
  }

  lemma {:induction false} StripLeftMeans(s: string) returns (before: string)
    ensures s == before + StripLeft(s) && AllBlank(before)
  {
    if s != "" && Blank(s[0]) {
      var rest := StripLeftMeans(s[1..]);
      before := [s[0]] + rest;
      assert s == [s[0]] + s[1..];
    } else {
      before := "";
    }
  }

  lemma {:induction false} StripRightMeans(s: string) returns (after: string)
    ensures s == StripRight(s) + after && AllBlank(after)
  {
    var n := |s| - 1;
    if s != "" && Blank(s[n]) {
      var rest := StripRightMeans(s[..n]);
      after := rest + [s[n]];
      assert s == s[..n] + [s[n]];
    } else {
      after := "";
    }
  }

  lemma {:induction false} StripLeftOf(before: string, s: string)
    requires AllBlank(before) && s != "" && !Blank(s[0])
    ensures StripLeft(before + s) == s
  {
    if before == "" {
      assert before + s == s;
    } else {
      assert (before + s)[1..] == before[1..] + s;
      StripLeftOf(before[1..], s);
    }
  }

  lemma {:induction false} StripRightOf(s: string, after: string)
    requires AllBlank(after) && s != "" && !Blank(s[|s| - 1])
    ensures StripRight(s + after) == s
  {
    if after == "" {
      assert s + after == s;
    } else {
      var n := |after| - 1;
      assert (s + after)[..|s| + n] == s + after[..n] && (s + after)[|s| + n] == after[n];
      StripRightOf(s, after[..n]);
    }
  }

  /** `int(s, 16)` succeeds exactly on the numerals. */
  lemma ReadsAsIntMeans(s: string)
    ensures ReadsAsInt(s) <==>
              exists before, sign, prefix, digits, after :: Numeral(s, before, sign, prefix, digits, after)
  {
    hide Grouped, DigitGroups, StripLeft, StripRight, Blank;
    if ReadsAsInt(s) {
      NumeralOf(s);
    }
    forall before, sign, prefix, digits, after | Numeral(s, before, sign, prefix, digits, after)
      ensures ReadsAsInt(s)
    {
      NumeralIsRead(s, before, sign, prefix, digits, after);
    }
  }

  lemma SignOf(t: string) returns (sign: string, u: string)
    ensures t == sign + u && sign in {"", "+", "-"}
    ensures u == if t != "" && (t[0] == '+' || t[0] == '-') then t[1..] else t
  {
    sign := if t != "" && (t[0] == '+' || t[0] == '-') then [t[0]] else "";
    u := t[|sign|..];
    assert t[0..] == t;
  }

  lemma PrefixOf(u: string) returns (prefix: string, v: string)
    ensures u == prefix + v && prefix in {"", "0x", "0X"}
    ensures v == if |u| >= 2 && u[0] == '0' && (u[1] == 'x' || u[1] == 'X') then u[2..] else u
    ensures |v| < |u| <==> prefix != ""
  {
    prefix := if |u| >= 2 && u[0] == '0' && (u[1] == 'x' || u[1] == 'X') then [u[0], u[1]] else "";
    v := u[|prefix|..];
    assert u[0..] == u;
  }

  lemma ReadsParts(t: string)
    requires StripRight(StripLeft(t)) == t && ReadsAsInt(t)
    ensures var u := if t != "" && (t[0] == '+' || t[0] == '-') then t[1..] else t;
      var v := if |u| >= 2 && u[0] == '0' && (u[1] == 'x' || u[1] == 'X') then u[2..] else u;
      DigitGroups(v) || (|v| < |u| && v != "" && v[0] == '_' && DigitGroups(v[1..]))
  {
    hide DigitGroups, StripLeft, StripRight;
  }

  lemma Joined(a: string, b: string, c: string)
    ensures a + (b + c) == a + b + c
  {
  }

  /** The sign, the prefix and the digits of a text without outer blanks. */
  lemma PartsOf(t: string) returns (sign: string, prefix: string, digits: string)
    requires StripRight(StripLeft(t)) == t && ReadsAsInt(t)
    ensures t == sign + prefix + digits && sign in {"", "+", "-"} && prefix in {"", "0x", "0X"}
    ensures DigitGroups(digits)
         || (prefix != "" && digits != "" && digits[0] == '_' && DigitGroups(digits[1..]))
  {
    hide DigitGroups, StripLeft, StripRight, ReadsAsInt;
    ReadsParts(t);
    var u: string;
    sign, u := SignOf(t);
    prefix, digits := PrefixOf(u);
    Joined(sign, prefix, digits);
  }

  lemma ReadsStripped(s: string)
    ensures ReadsAsInt(StripRight(StripLeft(s))) <==> ReadsAsInt(s)
    ensures StripRight(StripLeft(StripRight(StripLeft(s)))) == StripRight(StripLeft(s))
  {
    hide DigitGroups;
    StripsTwice(s);
  }

  lemma {:induction false} StripRightStarts(s: string)
    ensures StripRight(s) == "" || StripRight(s)[0] == s[0]
    ensures StripRight(StripRight(s)) == StripRight(s)
  {
    if s != "" && Blank(s[|s| - 1]) {
      StripRightStarts(s[..|s| - 1]);
    }
  }

  lemma {:induction false} StripLeftStarts(s: string)
    ensures StripLeft(s) == "" || !Blank(StripLeft(s)[0])
  {
    if s != "" && Blank(s[0]) {
      StripLeftStarts(s[1..]);
    }
  }

  lemma StripsTwice(s: string)
    ensures StripRight(StripLeft(StripRight(StripLeft(s)))) == StripRight(StripLeft(s))
  {
    StripLeftStarts(s);
    StripRightStarts(StripLeft(s));
  }

  lemma NumeralOf(s: string)
    requires ReadsAsInt(s)
    ensures exists before, sign, prefix, digits, after :: Numeral(s, before, sign, prefix, digits, after)
  {
    hide Grouped, DigitGroups, StripLeft, StripRight, Blank, AllBlank, ReadsAsInt;
    var before := StripLeftMeans(s);
    var after := StripRightMeans(StripLeft(s));
    ReadsStripped(s);
    var sign, prefix, digits := PartsOf(StripRight(StripLeft(s)));
    GroupsMean(digits);
    if digits != "" {
      GroupsMean(digits[1..]);
    }
    assert s == before + sign + prefix + digits + after;
    assert Numeral(s, before, sign, prefix, digits, after);
  }

  lemma NumeralEnds(prefix: string, digits: string)
    requires prefix in {"", "0x", "0X"}
    requires Grouped(digits) || (prefix != "" && digits != "" && digits[0] == '_' && Grouped(digits[1..]))
    ensures digits != "" && !Blank(digits[|digits| - 1])
    ensures HexDigit((prefix + digits)[0])
    ensures prefix == "" ==> !(|digits| >= 2 && (digits[1] == 'x' || digits[1] == 'X'))
  {
    assert prefix != "" ==> (prefix + digits)[0] == '0';
    assert prefix == "" ==> prefix + digits == digits;
    assert !Grouped(digits) ==> digits[1..][|digits| - 2] == digits[|digits| - 1];
  }

  lemma NumeralIsRead(s: string, before: string, sign: string, prefix: string, digits: string, after: string)
    requires Numeral(s, before, sign, prefix, digits, after)
    ensures ReadsAsInt(s)
  {
    hide Grouped, DigitGroups, StripLeft, StripRight, AllBlank, ReadsAsInt;
    NumeralEnds(prefix, digits);
    var u := prefix + digits;
    var t := sign + u;
    assert s == before + (t + after);
    assert (t + after)[0] == t[0] == if sign == "" then u[0] else sign[0];
    StripLeftOf(before, t + after);
    assert t[|t| - 1] == digits[|digits| - 1];
    StripRightOf(t, after);
    StrippedIsRead(s, sign, prefix, digits);
  }

  lemma StrippedIsRead(s: string, sign: string, prefix: string, digits: string)
    requires StripRight(StripLeft(s)) == sign + (prefix + digits)
    requires sign in {"", "+", "-"} && prefix in {"", "0x", "0X"}
    requires Grouped(digits) || (prefix != "" && digits != "" && digits[0] == '_' && Grouped(digits[1..]))
    ensures ReadsAsInt(s)
  {
    hide Grouped, DigitGroups, StripLeft, StripRight;
    NumeralEnds(prefix, digits);
    var u := prefix + digits;
    var t := sign + u;
    assert sign == "" ==> t == u;
    assert sign != "" ==> t[1..] == u;
    assert prefix == "" ==> u == digits;
    assert prefix != "" ==> u[2..] == digits;
    GroupsMean(digits);
    GroupsMean(digits[1..]);
  }
}
