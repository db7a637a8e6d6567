/**
 The strict parser and the canonical printer undo each other on clean values, and only on those.
 */
module JsonProofs {
  import opened Hashing
  import opened Results
  import opened Sorting
  import opened JsonText
  import opened Json

  // ---------------------------------------------------------------- order of keys

  lemma {:induction false} SortedKeys(ms: Members)
    requires Sorted(ms)
    ensures ms.Member? ==> forall k :: k in Keys(ms.rest) ==> Less(ms.key, k)
    ensures DistinctKeys(ms)
  {
    if ms.Member? {
      SortedKeys(ms.rest);
      LessIsTotal(ms.key, ms.key);
      if ms.rest.Member? {
        forall k | k in Keys(ms.rest)
          ensures Less(ms.key, k)
        {
          if k != ms.rest.key {
            LessIsTransitive(ms.key, ms.rest.key, k);
          }
        }
      }
    }
  }

  lemma {:induction false} InsertKeeps(key: Text, v: Json, ms: Members)
    requires key !in Keys(ms) && Sorted(ms)
    ensures Sorted(Insert(key, v, ms)) && Keys(Insert(key, v, ms)) == Keys(ms) + {key}
    ensures forall k :: Lookup(Insert(key, v, ms), k) == if k == key then Some(v) else Lookup(ms, k)
  {
    hide Less;
    if ms.Member? {
      LessIsTotal(ms.key, key);
      if Less(ms.key, key) {
        InsertKeeps(key, v, ms.rest);
      }
    }
  }

  lemma {:induction false} LookupKeys(ms: Members, key: Text)
    ensures Lookup(ms, key).Some? <==> key in Keys(ms)
  {
    if ms.Member? {
      LookupKeys(ms.rest, key);
    }
  }

  /** Sorting orders the keys and changes no entry. */
  lemma {:induction false} SortKeeps(ms: Members)
    requires DistinctKeys(ms)
    ensures Sorted(Sort(ms)) && Keys(Sort(ms)) == Keys(ms)
    ensures forall k :: Lookup(Sort(ms), k) == Lookup(ms, k)
  {
    hide Less;
    if ms.Member? {
      SortKeeps(ms.rest);
      InsertKeeps(ms.key, ms.value, Sort(ms.rest));
    }
  }

  lemma {:induction false} SortOfSorted(ms: Members)
    requires Sorted(ms)
    ensures Sort(ms) == ms
  {
    hide Less;
    if ms.Member? {
      SortOfSorted(ms.rest);
      if ms.rest.Member? {
        LessIsTotal(ms.key, ms.rest.key);
      }
    }
  }

  /** A dictionary has one ordered form, whatever order its entries were added in. */
  lemma {:induction false} SortedIsUnique(a: Members, b: Members)
    requires Sorted(a) && Sorted(b)
    requires forall k :: Lookup(a, k) == Lookup(b, k)
    ensures a == b
  {
    hide Less;
    SortedKeys(a);
    SortedKeys(b);
    if a.End? {
      assert b.Member? ==> Lookup(b, b.key).Some?;
    } else {
      assert Lookup(a, a.key) == Some(a.value);
      LookupKeys(b, a.key);
      LookupKeys(a, b.key);
      assert Lookup(b, b.key) == Some(b.value);
      LessIsTotal(a.key, b.key);
      assert a.key == b.key && a.value == b.value;
      forall k
        ensures Lookup(a.rest, k) == Lookup(b.rest, k)
      {
        assert Lookup(a, k) == Lookup(b, k);
        LookupKeys(a.rest, k);
        LookupKeys(b.rest, k);
        LessIsTotal(a.key, a.key);
      }
      SortedIsUnique(a.rest, b.rest);
    }
  }

  // ---------------------------------------------------------------- the ordered form

  lemma {:induction false} InsertChecks(key: Text, v: Json, ms: Members)
    ensures CleanMembers(Insert(key, v, ms)) <==> Clean(key) && CleanValue(v) && CleanMembers(ms)
    ensures ProperMembers(Insert(key, v, ms)) <==> Proper(v) && ProperMembers(ms)
    ensures OrderedMembers(Insert(key, v, ms)) <==> Ordered(v) && OrderedMembers(ms)
  {
    hide Less, Clean;
    if ms.Member? {
      InsertChecks(key, v, ms.rest);
    }
  }

  lemma {:induction false} SortChecks(ms: Members)
    ensures CleanMembers(Sort(ms)) <==> CleanMembers(ms)
    ensures ProperMembers(Sort(ms)) <==> ProperMembers(ms)
    ensures OrderedMembers(Sort(ms)) <==> OrderedMembers(ms)
  {
    hide Less, Clean;
    if ms.Member? {
      SortChecks(ms.rest);
      InsertChecks(ms.key, ms.value, Sort(ms.rest));
    }
  }

  /** The ordered form of a proper value is ordered, proper, and as clean as the value. */
  lemma {:induction false} NormKeeps(v: Json)
    requires Proper(v)
    ensures Ordered(Norm(v)) && Proper(Norm(v))
    ensures CleanValue(Norm(v)) <==> CleanValue(v)
  {
    match v
    case Arr(items) => NormItemsKeeps(items);
    case Obj(ms) =>
      NormMembersKeeps(ms);
      SortChecks(NormMembers(ms));
      SortKeeps(NormMembers(ms));
      SortedKeys(Sort(NormMembers(ms)));
    case _ =>
  }

  lemma {:induction false} NormItemsKeeps(items: Items)
    requires ProperItems(items)
    ensures OrderedItems(NormItems(items)) && ProperItems(NormItems(items))
    ensures CleanItems(NormItems(items)) <==> CleanItems(items)
  {
    if items.Cons? {
      NormKeeps(items.head);
      NormItemsKeeps(items.tail);
    }
  }

  lemma {:induction false} NormMembersKeeps(ms: Members)
    requires ProperMembers(ms)
    ensures OrderedMembers(NormMembers(ms)) && ProperMembers(NormMembers(ms))
    ensures CleanMembers(NormMembers(ms)) <==> CleanMembers(ms)
    ensures Keys(NormMembers(ms)) == Keys(ms)
    ensures DistinctKeys(NormMembers(ms)) <==> DistinctKeys(ms)
    ensures forall k :: Lookup(NormMembers(ms), k)
                     == if Lookup(ms, k).Some? then Some(Norm(Lookup(ms, k).value)) else None
  {
    hide Clean;
    if ms.Member? {
      NormKeeps(ms.value);
      NormMembersKeeps(ms.rest);
    }
  }

  lemma {:induction false} OrderedIsNorm(v: Json)
    requires Ordered(v)
    ensures Norm(v) == v && Proper(v)
  {
    match v
    case Arr(items) => OrderedItemsAreNorm(items);
    case Obj(ms) =>
      OrderedMembersAreNorm(ms);
      SortOfSorted(ms);
      SortedKeys(ms);
    case _ =>
  }

  lemma {:induction false} OrderedItemsAreNorm(items: Items)
    requires OrderedItems(items)
    ensures NormItems(items) == items && ProperItems(items)
  {
    if items.Cons? {
      OrderedIsNorm(items.head);
      OrderedItemsAreNorm(items.tail);
    }
  }

  lemma {:induction false} OrderedMembersAreNorm(ms: Members)
    requires OrderedMembers(ms)
    ensures NormMembers(ms) == ms && ProperMembers(ms)
  {
    if ms.Member? {
      OrderedIsNorm(ms.value);
      OrderedMembersAreNorm(ms.rest);
    }
  }

  // ---------------------------------------------------------------- parsing what was printed

  lemma WordRoundTrip(word: Bytes, v: Json, tail: Bytes)
    requires word != []
    ensures ParseWord(word, v, word + tail) == Some((v, tail))
  {
    assert (word + tail)[|word|..] == tail;
  }

  lemma FirstOfInt(n: int, tail: Bytes)
    ensures var s := WriteInt(n, tail); s != [] && (Digit(s[0]) || s[0] == MINUS)
  {
    FirstDigit(if n < 0 then -n else n);
  }

  /** A printed value starts with a byte that is neither blank nor a closing bracket or brace. */
  lemma Starts(v: Json, tail: Bytes)
    ensures var s := Write(v, tail);
      s != [] && !Blank(s[0]) && s[0] != CLOSE_BRACKET && s[0] != CLOSE_BRACE && Skip(s) == s
  {
    hide WriteInt, WriteChars, WriteItems, WriteMembers;
    if v.Num? {
      FirstOfInt(v.n, tail);
    }
  }

  lemma SkipNothing(b: byte, tail: Bytes)
    requires !Blank(b)
    ensures Skip([b] + tail) == [b] + tail && ([b] + tail)[1..] == tail
  {
  }

  /** A clean value is read back exactly, up to the text that follows it, unless a key repeats inside. */
  lemma {:induction false} ValueRoundTrip(v: Json, tail: Bytes)
    requires CleanValue(v) && EndsNumber(tail)
    ensures ParseValue(Write(v, tail)) == if Proper(v) then Some((v, tail)) else None
    decreases v
  {
    hide ParseItems, ParseMembers, WriteChars, WriteInt, ParseChars, ParseInt, WriteItems, WriteMembers;
    Starts(v, tail);
    match v
    case Null => WordRoundTrip(NULL_TEXT, v, tail);
    case Bool(b) => WordRoundTrip(if b then TRUE_TEXT else FALSE_TEXT, v, tail);
    case Num(n) =>
      FirstOfInt(n, tail);
      IntTextRoundTrip(n, tail);
    case Str(t) =>
      SkipNothing(QUOTE, WriteChars(t, tail));
      CharsRoundTrip(t, tail);
    case Arr(items) =>
      if items.Nil? {
        SkipNothing(OPEN_BRACKET, [CLOSE_BRACKET] + tail);
        SkipNothing(CLOSE_BRACKET, tail);
      } else {
        var inner := WriteItems(items, tail);
        SkipNothing(OPEN_BRACKET, inner);
        ItemsStart(items, tail);
        ItemsRoundTrip(items, tail);
      }
    case Obj(ms) =>
      if ms.End? {
        SkipNothing(OPEN_BRACE, [CLOSE_BRACE] + tail);
        SkipNothing(CLOSE_BRACE, tail);
      } else {
        var inner := WriteMembers(ms, tail);
        SkipNothing(OPEN_BRACE, inner);
        MembersStart(ms, tail);
        MembersRoundTrip(ms, tail);
      }
  }

  lemma ItemsStart(items: Items, tail: Bytes)
    requires items.Cons?
    ensures var s := WriteItems(items, tail); s != [] && s[0] != CLOSE_BRACKET && Skip(s) == s
  {
    hide Write;
    Starts(items.head, if items.tail.Nil? then [CLOSE_BRACKET] + tail else [COMMA] + WriteItems(items.tail, tail));
  }

  lemma MembersStart(ms: Members, tail: Bytes)
    requires ms.Member?
    ensures var s := WriteMembers(ms, tail); s != [] && s[0] == QUOTE && Skip(s) == s
  {
    hide Write, WriteChars;
  }

  lemma {:induction false} ItemsRoundTrip(items: Items, tail: Bytes)
    requires items.Cons? && CleanItems(items)
    ensures ParseItems(WriteItems(items, tail)) == if ProperItems(items) then Some((items, tail)) else None
    decreases items
  {
    hide ParseValue, Write;
    if items.tail.Nil? {
      ValueRoundTrip(items.head, [CLOSE_BRACKET] + tail);
      SkipNothing(CLOSE_BRACKET, tail);
    } else {
      var rest := WriteItems(items.tail, tail);
      ValueRoundTrip(items.head, [COMMA] + rest);
      SkipNothing(COMMA, rest);
      ItemsRoundTrip(items.tail, tail);
    }
  }

  lemma KeyRoundTrip(key: Text, tail: Bytes)
    requires Clean(key)
    ensures ParseKey([QUOTE] + WriteChars(key, [COLON] + tail)) == Some((key, tail))
  {
    hide ParseChars, WriteChars, Clean;
    SkipNothing(QUOTE, WriteChars(key, [COLON] + tail));
    CharsRoundTrip(key, [COLON] + tail);
    SkipNothing(COLON, tail);
  }

  lemma {:induction false} MembersRoundTrip(ms: Members, tail: Bytes)
    requires ms.Member? && CleanMembers(ms)
    ensures ParseMembers(WriteMembers(ms, tail)) == if ProperMembers(ms) then Some((ms, tail)) else None
    decreases ms
  {
    hide ParseValue, Write, WriteChars, ParseKey, Clean;
    if ms.rest.End? {
      KeyRoundTrip(ms.key, Write(ms.value, [CLOSE_BRACE] + tail));
      ValueRoundTrip(ms.value, [CLOSE_BRACE] + tail);
      SkipNothing(CLOSE_BRACE, tail);
    } else {
      var rest := WriteMembers(ms.rest, tail);
      KeyRoundTrip(ms.key, Write(ms.value, [COMMA] + rest));
      ValueRoundTrip(ms.value, [COMMA] + rest);
      SkipNothing(COMMA, rest);
      MembersRoundTrip(ms.rest, tail);
    }
  }

  // ---------------------------------------------------------------- what parsing yields

  lemma {:induction false} ParsedIsCleanAndProper(s: Bytes)
    requires ParseValue(s).Some?
    ensures CleanValue(ParseValue(s).value.0) && Proper(ParseValue(s).value.0)
    decreases |s|, 0
  {
    hide ParseChars, ParseInt, ParseItems, ParseMembers, Skip, Clean;
    var t := Skip(s);
    SkipShrinks(s);
    if t[0] == QUOTE {
      ParsedCharsAreClean(t[1..]);
    } else if t[0] == OPEN_BRACKET {
      var inner := Skip(t[1..]);
      SkipShrinks(t[1..]);
      if inner == [] || inner[0] != CLOSE_BRACKET {
        ParsedItemsAreClean(inner);
      }
    } else if t[0] == OPEN_BRACE {
      var inner := Skip(t[1..]);
      SkipShrinks(t[1..]);
      if inner == [] || inner[0] != CLOSE_BRACE {
        ParsedMembersAreClean(inner);
      }
    }
  }

  lemma SkipShrinks(s: Bytes)
    ensures |Skip(s)| <= |s|
  {
  }

  lemma {:induction false} ParsedItemsAreClean(s: Bytes)
    requires ParseItems(s).Some?
    ensures CleanItems(ParseItems(s).value.0) && ProperItems(ParseItems(s).value.0)
    decreases |s|, 1
  {
    hide ParseValue, Skip;
    ParsedIsCleanAndProper(s);
    var (v, rest) := ParseValue(s).value;
    var next := Skip(rest);
    SkipShrinks(rest);
    if next[0] == COMMA {
      ParsedItemsAreClean(next[1..]);
    }
  }

  lemma ParsedKeyIsClean(s: Bytes)
    requires ParseKey(s).Some?
    ensures Clean(ParseKey(s).value.0)
  {
    hide ParseChars, Clean;
    ParsedCharsAreClean(Skip(s)[1..]);
  }

  lemma {:induction false} ParsedMembersAreClean(s: Bytes)
    requires ParseMembers(s).Some?
    ensures CleanMembers(ParseMembers(s).value.0) && ProperMembers(ParseMembers(s).value.0)
    decreases |s|, 1
  {
    hide ParseValue, Skip, ParseKey, Clean;
    ParsedKeyIsClean(s);
    var (key, body) := ParseKey(s).value;
    ParsedIsCleanAndProper(body);
    var (v, rest) := ParseValue(body).value;
    var next := Skip(rest);
    SkipShrinks(rest);
    if next[0] == COMMA {
      ParsedMembersAreClean(next[1..]);
    }
  }

  // ---------------------------------------------------------------- main results

  lemma PrintParses(v: Json)
    requires Proper(v) && CleanValue(v)
    ensures ParseDocument(Print(v)) == Some(Norm(v))
  {
    hide ParseValue, Write, CleanValue, Proper, Norm;
    NormKeeps(v);
    ValueRoundTrip(Norm(v), []);
  }

  /**
   Printing and parsing give the value back, keys in order, exactly when no string in it has a high surrogate
   directly before a low one: the parser joins such a pair.
   */
  lemma RoundTripIffClean(v: Json)
    requires Proper(v)
    ensures ParseDocument(Print(v)) == Some(Norm(v)) <==> CleanValue(v)
  {
    hide ParseValue, Write, CleanValue, Proper, Norm;
    NormKeeps(v);
    if CleanValue(v) {
      PrintParses(v);
    } else if ParseDocument(Print(v)) == Some(Norm(v)) {
      ParsedIsCleanAndProper(Print(v));
    }
  }

  /** The printer tells clean values apart, up to the order of keys. */
  lemma PrintIsInjective(v: Json, w: Json)
    requires Proper(v) && CleanValue(v) && Proper(w) && CleanValue(w)
    ensures Print(v) == Print(w) <==> Norm(v) == Norm(w)
  {
    hide Print, ParseDocument, CleanValue, Proper, Norm;
    PrintParses(v);
    PrintParses(w);
    if Norm(v) == Norm(w) {
      SameNormSamePrint(v, w);
    }
  }

  lemma SameNormSamePrint(v: Json, w: Json)
    requires Norm(v) == Norm(w)
    ensures Print(v) == Print(w)
  {
  }

  function Joined(high: CodePoint, low: CodePoint): CodePoint
    requires High(high) && Low(low)
  {
    0x1_0000 + (high - 0xD800) * 0x400 + (low - 0xDC00)
  }

  lemma EscapeOfJoined(high: CodePoint, low: CodePoint)
    requires High(high) && Low(low)
    ensures Escape(Joined(high, low)) == Escape(high) + Escape(low)
  {
    hide Unit;
    var c := Joined(high, low) - 0x1_0000;
    assert c / 0x400 == high - 0xD800 && c % 0x400 == low - 0xDC00;
  }

  lemma {:induction false} WriteCharsSplits(a: Text, b: Text, c: Text, tail: Bytes)
    requires WriteChars(b, tail) == WriteChars(c, tail)
    ensures WriteChars(a + b, tail) == WriteChars(a + c, tail)
  {
    hide Escape;
    if a == [] {
      assert a + b == b && a + c == c;
    } else {
      assert (a + b)[1..] == a[1..] + b && (a + c)[1..] == a[1..] + c;
      WriteCharsSplits(a[1..], b, c, tail);
    }
  }

  /** Every string that is not clean prints like another: an adjacent pair prints like the character it encodes. */
  lemma UncleanTextHasTwin(t: Text, i: nat)
    requires i + 1 < |t| && High(t[i]) && Low(t[i + 1])
    ensures var twin := t[..i] + ([Joined(t[i], t[i + 1])] + t[i + 2..]);
      twin != t && Print(Str(twin)) == Print(Str(t))
  {
    hide Escape;
    var joined := [Joined(t[i], t[i + 1])] + t[i + 2..];
    var twin := t[..i] + joined;
    assert |twin| == |t| - 1;
    EscapeOfJoined(t[i], t[i + 1]);
    var rest := WriteChars(t[i + 2..], []);
    assert joined[1..] == t[i + 2..] && t[i..][1..] == t[i + 1..] && t[i + 1..][1..] == t[i + 2..];
    assert WriteChars(joined, []) == Escape(t[i]) + Escape(t[i + 1]) + rest;
    assert WriteChars(t[i..], []) == Escape(t[i]) + (Escape(t[i + 1]) + rest);
    WriteCharsSplits(t[..i], joined, t[i..], []);
    assert t == t[..i] + t[i..];
  }

  /** Objects with the same entries, in any order of insertion, print alike. */
  lemma PrintIgnoresInsertionOrder(a: Members, b: Members)
    requires Proper(Obj(a)) && Proper(Obj(b))
    requires forall k :: Lookup(a, k) == Lookup(b, k)
    ensures Print(Obj(a)) == Print(Obj(b))
  {
    hide Write;
    NormMembersKeeps(a);
    NormMembersKeeps(b);
    SortKeeps(NormMembers(a));
    SortKeeps(NormMembers(b));
    SortedIsUnique(Sort(NormMembers(a)), Sort(NormMembers(b)));
  }

  // ---------------------------------------------------------------- the strict parser

  predicate Canonical(raw: Bytes, v: Json) {
    v.Obj? && Ordered(v) && CleanValue(v) && Print(v) == raw
  }

  /** Accepts exactly the texts the printer writes for clean objects, and yields the printed object. */
  method ParseCanonicalStatement(raw: Bytes) returns (r: Result<Json>)
    ensures r.Ok? ==> Canonical(raw, r.value)
    ensures r.Err? ==> forall v: Json :: v.Obj? && Proper(v) && CleanValue(v) ==> Print(v) != raw
  {
    hide Print, Proper, CleanValue, ParseDocument, Norm, Ordered;
    forall v: Json | v.Obj? && Proper(v) && CleanValue(v) && Print(v) == raw
      ensures ParseDocument(raw) == Some(Norm(v)) && Norm(v).Obj? && Print(Norm(v)) == raw
    {
      PrintParses(v);
      PrintOfNorm(v);
    }
    var parsed := ParseDocument(raw);
    if parsed.None? {
      return Err("identity amendment must be valid ASCII JSON");
    }
    if !parsed.value.Obj? {
      return Err("identity amendment must be a JSON object");
    }
    if Print(parsed.value) != raw {
      return Err("identity amendment JSON is not canonical");
    }
    AcceptedIsOrdered(raw, parsed.value);
    return Ok(parsed.value);
  }

  lemma PrintOfNorm(v: Json)
    requires Proper(v)
    ensures Print(Norm(v)) == Print(v) && (v.Obj? ==> Norm(v).Obj?)
  {
    hide Write;
    NormKeeps(v);
    OrderedIsNorm(Norm(v));
  }

  lemma AcceptedIsOrdered(raw: Bytes, v: Json)
    requires ParseDocument(raw) == Some(v) && Print(v) == raw
    ensures Ordered(v) && CleanValue(v)
  {
    hide ParseValue, Write, CleanValue, Proper, Norm, Ordered;
    ParsedIsCleanAndProper(raw);
    PrintParses(v);
    NormKeeps(v);
  }

  /** A canonical text has one value and a value has one canonical text. */
  lemma CanonicalIsOneToOne(raw: Bytes, v: Json, text: Bytes, w: Json)
    requires Canonical(raw, v) && Canonical(text, w)
    ensures raw == text <==> v == w
  {
    hide Print, CleanValue, Norm, Ordered;
    OrderedIsNorm(v);
    OrderedIsNorm(w);
    PrintIsInjective(v, w);
  }
}
