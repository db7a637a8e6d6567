/**
 What becomes of strings with adjacent surrogates: the printer writes, and the parser reads, the joined characters.
 */
module JsonJoined {
  import opened Hashing
  import opened Results
  import opened Sorting
  import opened JsonText
  import opened Json
  import opened JsonProofs

  /** Every high surrogate directly before a low one is joined with it. */
  function JoinText(t: Text): Text {
    if t == [] then []
    else if |t| >= 2 && High(t[0]) && Low(t[1]) then [Joined(t[0], t[1])] + JoinText(t[2..])
    else [t[0]] + JoinText(t[1..])
  }

  function Join(v: Json): Json {
    match v
    case Str(t) => Str(JoinText(t))
    case Arr(items) => Arr(JoinItems(items))
    case Obj(ms) => Obj(JoinMembers(ms))
    case _ => v
  }

  function JoinItems(items: Items): Items {
    match items
    case Nil => Nil
    case Cons(head, tail) => Cons(Join(head), JoinItems(tail))
  }

  function JoinMembers(ms: Members): Members {
    match ms
    case End => End
    case Member(k, v, rest) => Member(JoinText(k), Join(v), JoinMembers(rest))
  }

  // ---------------------------------------------------------------- strings

  lemma {:induction false} JoinedTextIsClean(t: Text)
    ensures Clean(JoinText(t))
    ensures JoinText(t) != [] && Low(JoinText(t)[0]) ==> t != [] && Low(t[0])
    decreases |t|
  {
    if |t| >= 2 && High(t[0]) && Low(t[1]) {
      JoinedTextIsClean(t[2..]);
      PrependKeepsClean(Joined(t[0], t[1]), JoinText(t[2..]));
    } else if t != [] {
      JoinedTextIsClean(t[1..]);
      assert t[1..] != [] ==> t[1..][0] == t[1];
      PrependKeepsClean(t[0], JoinText(t[1..]));
    }
  }

  lemma PrependKeepsClean(c: CodePoint, t: Text)
    requires Clean(t) && !(High(c) && t != [] && Low(t[0]))
    ensures Clean([c] + t)
  {
    var all := [c] + t;
    assert forall i :: 1 <= i < |all| ==> all[i] == t[i - 1];
  }

  lemma {:induction false} JoinOfClean(t: Text)
    requires Clean(t)
    ensures JoinText(t) == t
    decreases |t|
  {
    if t != [] {
      JoinOfClean(t[1..]);
      assert t == [t[0]] + t[1..];
    }
  }

  lemma {:induction false} WriteJoinedChars(t: Text, tail: Bytes)
    ensures WriteChars(JoinText(t), tail) == WriteChars(t, tail)
    decreases |t|
  {
    hide Escape;
    if |t| >= 2 && High(t[0]) && Low(t[1]) {
      WriteJoinedChars(t[2..], tail);
      EscapeOfJoined(t[0], t[1]);
      assert JoinText(t)[1..] == JoinText(t[2..]) && t[1..][1..] == t[2..];
    } else if t != [] {
      WriteJoinedChars(t[1..], tail);
      assert JoinText(t)[1..] == JoinText(t[1..]);
    }
  }

  // ---------------------------------------------------------------- values

  lemma {:induction false} JoinedIsClean(v: Json)
    ensures CleanValue(Join(v))
    ensures CleanValue(v) ==> Join(v) == v
  {
    hide Clean, JoinText;
    match v
    case Str(t) => CleanJoin(t);
    case Arr(items) => JoinedItemsAreClean(items);
    case Obj(ms) => JoinedMembersAreClean(ms);
    case _ =>
  }

  lemma CleanJoin(t: Text)
    ensures Clean(JoinText(t)) && (Clean(t) ==> JoinText(t) == t)
  {
    hide Clean, JoinText;
    JoinedTextIsClean(t);
    if Clean(t) {
      JoinOfClean(t);
    }
  }

  lemma {:induction false} JoinedItemsAreClean(items: Items)
    ensures CleanItems(JoinItems(items))
    ensures CleanItems(items) ==> JoinItems(items) == items
  {
    if items.Cons? {
      JoinedIsClean(items.head);
      JoinedItemsAreClean(items.tail);
    }
  }

  lemma {:induction false} JoinedMembersAreClean(ms: Members)
    ensures CleanMembers(JoinMembers(ms))
    ensures CleanMembers(ms) ==> JoinMembers(ms) == ms
  {
    hide Clean, JoinText;
    if ms.Member? {
      CleanJoin(ms.key);
      JoinedIsClean(ms.value);
      JoinedMembersAreClean(ms.rest);
    }
  }

  /** A value and its joined form have one text. */
  lemma {:induction false} WriteJoined(v: Json, tail: Bytes)
    ensures Write(Join(v), tail) == Write(v, tail)
    decreases v
  {
    hide WriteChars, JoinText, WriteItems, WriteMembers;
    match v
    case Str(t) => WriteJoinedChars(t, tail);
    case Arr(items) =>
      if items.Cons? {
        WriteJoinedItems(items, tail);
      }
    case Obj(ms) =>
      if ms.Member? {
        WriteJoinedMembers(ms, tail);
      }
    case _ =>
  }

  lemma {:induction false} WriteJoinedItems(items: Items, tail: Bytes)
    requires items.Cons?
    ensures WriteItems(JoinItems(items), tail) == WriteItems(items, tail)
    decreases items
  {
    hide Write;
    if items.tail.Nil? {
      WriteJoined(items.head, [CLOSE_BRACKET] + tail);
    } else {
      WriteJoinedItems(items.tail, tail);
      WriteJoined(items.head, [COMMA] + WriteItems(items.tail, tail));
    }
  }

  lemma {:induction false} WriteJoinedMembers(ms: Members, tail: Bytes)
    requires ms.Member?
    ensures WriteMembers(JoinMembers(ms), tail) == WriteMembers(ms, tail)
    decreases ms
  {
    hide Write, WriteChars, JoinText;
    if ms.rest.End? {
      WriteJoined(ms.value, [CLOSE_BRACE] + tail);
      WriteJoinedChars(ms.key, [COLON] + Write(ms.value, [CLOSE_BRACE] + tail));
    } else {
      WriteJoinedMembers(ms.rest, tail);
      WriteJoined(ms.value, [COMMA] + WriteMembers(ms.rest, tail));
      WriteJoinedChars(ms.key, [COLON] + Write(ms.value, [COMMA] + WriteMembers(ms.rest, tail)));
    }
  }

  // ---------------------------------------------------------------- main results

  /** What a printed value is read back as: keys were put in order first, surrogates are joined after. */
  function ReadBack(v: Json): Json {
    Join(Norm(v))
  }

  /** Parsing a printed value gives its ordered form with surrogates joined, or is refused if keys have become equal. */
  lemma PrintedIsReadBack(v: Json)
    ensures ParseDocument(Print(v)) == if Proper(ReadBack(v)) then Some(ReadBack(v)) else None
  {
    hide ParseValue, Write, CleanValue, Proper, Norm, Join;
    JoinedIsClean(Norm(v));
    WriteJoined(Norm(v), []);
    ValueRoundTrip(ReadBack(v), []);
  }

  /** Values print alike exactly when they are read back alike, if the first one's keys stay distinct. */
  lemma PrintAlikeIff(v: Json, w: Json)
    requires Proper(ReadBack(v))
    ensures Print(v) == Print(w) <==> ReadBack(v) == ReadBack(w)
  {
    hide ParseDocument, Write, Proper, Norm, Join;
    PrintedIsReadBack(v);
    PrintedIsReadBack(w);
    WriteJoined(Norm(v), []);
    WriteJoined(Norm(w), []);
  }

  /** The strict parser accepts the print of an object exactly when joining leaves its keys in strict order. */
  lemma PrintAcceptedIff(v: Json)
    requires v.Obj?
    ensures (exists u :: Canonical(Print(v), u)) <==> Ordered(ReadBack(v))
  {
    hide ParseDocument, Write, Proper, Join, CleanValue, Ordered, Sort, NormMembers;
    var u := ReadBack(v);
    JoinedIsClean(Norm(v));
    PrintedIsReadBack(v);
    if Ordered(u) {
      OrderedIsNorm(u);
      WriteJoined(Norm(v), []);
      assert Canonical(Print(v), u) by { JoinKeepsObject(Norm(v)); }
    }
    forall w | Canonical(Print(v), w)
      ensures Ordered(u)
    {
      AcceptedIsReadBack(v, w);
    }
  }

  lemma JoinKeepsObject(v: Json)
    requires v.Obj?
    ensures Join(v).Obj?
  {
  }

  lemma AcceptedIsReadBack(v: Json, w: Json)
    requires Canonical(Print(v), w)
    ensures ReadBack(v) == w && Ordered(w)
  {
    hide ParseDocument, Write, Proper, Norm, Join, CleanValue, Ordered;
    OrderedIsNorm(w);
    PrintParses(w);
    PrintedIsReadBack(v);
  }

  /** Every key inside is clean. */
  predicate CleanKeys(v: Json) {
    match v
    case Arr(items) => CleanKeysOfItems(items)
    case Obj(ms) => CleanKeysOfMembers(ms)
    case _ => true
  }

  predicate CleanKeysOfItems(items: Items) {
    items.Cons? ==> CleanKeys(items.head) && CleanKeysOfItems(items.tail)
  }

  predicate CleanKeysOfMembers(ms: Members) {
    ms.Member? ==> Clean(ms.key) && CleanKeys(ms.value) && CleanKeysOfMembers(ms.rest)
  }

  lemma {:induction false} JoinCommutesWithInsert(key: Text, v: Json, ms: Members)
    requires Clean(key) && CleanKeysOfMembers(ms)
    ensures JoinMembers(Insert(key, v, ms)) == Insert(key, Join(v), JoinMembers(ms))
    ensures CleanKeys(v) ==> CleanKeysOfMembers(Insert(key, v, ms))
  {
    hide Clean, JoinText, Less, Join;
    CleanJoin(key);
    if ms.Member? {
      CleanJoin(ms.key);
      JoinCommutesWithInsert(key, v, ms.rest);
    }
  }

  lemma {:induction false} JoinCommutesWithSort(ms: Members)
    requires CleanKeysOfMembers(ms)
    ensures JoinMembers(Sort(ms)) == Sort(JoinMembers(ms)) && CleanKeysOfMembers(Sort(ms))
  {
    hide Clean, JoinText, Less, Join;
    if ms.Member? {
      CleanJoin(ms.key);
      JoinCommutesWithSort(ms.rest);
      JoinCommutesWithInsert(ms.key, ms.value, Sort(ms.rest));
    }
  }

  /** Where all keys are clean, joining and ordering may be done in either order. */
  lemma {:induction false} CleanKeysReadBack(v: Json)
    requires CleanKeys(v)
    ensures ReadBack(v) == Norm(Join(v)) && CleanKeys(Norm(v))
  {
    match v
    case Arr(items) => CleanKeysItems(items);
    case Obj(ms) =>
      CleanKeysMembers(ms);
      JoinCommutesWithSort(NormMembers(ms));
    case _ =>
  }

  lemma {:induction false} CleanKeysItems(items: Items)
    requires CleanKeysOfItems(items)
    ensures JoinItems(NormItems(items)) == NormItems(JoinItems(items)) && CleanKeysOfItems(NormItems(items))
  {
    if items.Cons? {
      CleanKeysReadBack(items.head);
      CleanKeysItems(items.tail);
    }
  }

  lemma {:induction false} CleanKeysMembers(ms: Members)
    requires CleanKeysOfMembers(ms)
    ensures JoinMembers(NormMembers(ms)) == NormMembers(JoinMembers(ms)) && CleanKeysOfMembers(NormMembers(ms))
  {
    hide Clean, JoinText;
    if ms.Member? {
      CleanKeysReadBack(ms.value);
      CleanKeysMembers(ms.rest);
    }
  }

  lemma PairJoins(pair: Text, face: Text, other: Text)
    requires pair == [0xD83D, 0xDE00] && face == [0x1_F600] && other == [0xE000]
    ensures JoinText(pair) == face && JoinText(face) == face && JoinText(other) == other
    ensures Less(pair, other) && !Less(other, pair) && Less(other, face) && !Less(face, other)
  {
    assert pair[2..] == [];
    JoinOfClean(face);
    JoinOfClean(other);
  }

  /** An object of two keys. */
  function Two(x: Text, y: Text): Json {
    Obj(Member(x, Null, Member(y, Null, End)))
  }

  lemma TwoInOrder(x: Text, y: Text)
    requires Less(x, y) && !Less(y, x) && x != y
    ensures Norm(Two(x, y)) == Two(x, y) && Norm(Two(y, x)) == Two(x, y)
    ensures Proper(Two(x, y)) && Proper(Two(y, x))
  {
    hide Less, Clean;
    var a, b := Member(x, Null, End), Member(y, Null, End);
    assert NormMembers(a) == a && NormMembers(b) == b && Sort(a) == a && Sort(b) == b;
    assert Keys(a) == {x} && Keys(b) == {y} && DistinctKeys(a) && DistinctKeys(b);
    assert ProperMembers(a) && ProperMembers(b);
  }

  lemma TwoJoin(x: Text, y: Text)
    ensures Join(Two(x, y)) == Two(JoinText(x), JoinText(y))
  {
    hide JoinText;
    assert JoinMembers(Member(y, Null, End)) == Member(JoinText(y), Null, End);
  }

  /** The order of keys is settled before joining: equal values after joining need not print alike. */
  lemma JoiningFirstPrintsOtherwise()
    ensures var v := Obj(Member([0xD83D, 0xDE00], Null, Member([0xE000], Null, End)));
      Proper(v) && Proper(Join(v)) && Norm(Join(v)) == Norm(Join(Join(v))) && Print(v) != Print(Join(v))
  {
    hide JoinText, Less, Clean, Norm, Join, Print, Proper;
    var pair: Text := [0xD83D, 0xDE00];
    var face: Text := [0x1_F600];
    var other: Text := [0xE000];
    PairJoins(pair, face, other);
    TwoInOrder(pair, other);
    TwoInOrder(other, face);
    TwoJoin(pair, other);
    TwoJoin(face, other);
    TwoJoin(other, face);
    PrintAlikeIff(Two(pair, other), Two(face, other));
  }
}
