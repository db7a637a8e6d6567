/**
 Canonical JSON: a printer with sorted keys and no white space, and a strict parser that accepts only what that
 printer writes.
 */
module Json {
  import opened Hashing
  import opened Results
  import opened Sorting
  import opened JsonText

  /** An object is a dictionary in insertion order. */
  datatype Json = Null | Bool(b: bool) | Num(n: int) | Str(t: Text) | Arr(items: Items) | Obj(members: Members)
  datatype Items = Nil | Cons(head: Json, tail: Items)
  datatype Members = End | Member(key: Text, value: Json, rest: Members)

  function Keys(ms: Members): set<Text> {
    match ms
    case End => {}
    case Member(k, _, rest) => {k} + Keys(rest)
  }

  function Lookup(ms: Members, key: Text): Option<Json> {
    match ms
    case End => None
    case Member(k, v, rest) => if k == key then Some(v) else Lookup(rest, key)
  }

  predicate DistinctKeys(ms: Members) {
    match ms
    case End => true
    case Member(k, _, rest) => k !in Keys(rest) && DistinctKeys(rest)
  }

  /** Every object inside has distinct keys, as a dictionary has. */
  predicate Proper(v: Json) {
    match v
    case Arr(items) => ProperItems(items)
    case Obj(ms) => DistinctKeys(ms) && ProperMembers(ms)
    case _ => true
  }

  predicate ProperItems(items: Items) {
    items.Cons? ==> Proper(items.head) && ProperItems(items.tail)
  }

  predicate ProperMembers(ms: Members) {
    ms.Member? ==> Proper(ms.value) && ProperMembers(ms.rest)
  }

  /** No string inside has a high surrogate directly before a low one. */
  predicate CleanValue(v: Json) {
    match v
    case Str(t) => Clean(t)
    case Arr(items) => CleanItems(items)
    case Obj(ms) => CleanMembers(ms)
    case _ => true
  }

  predicate CleanItems(items: Items) {
    items.Cons? ==> CleanValue(items.head) && CleanItems(items.tail)
  }

  predicate CleanMembers(ms: Members) {
    ms.Member? ==> Clean(ms.key) && CleanValue(ms.value) && CleanMembers(ms.rest)
  }

  // ---------------------------------------------------------------- sorted keys

  function Insert(key: Text, value: Json, ms: Members): Members {
    match ms
    case End => Member(key, value, End)
    case Member(k, v, rest) =>
      if Less(k, key) then Member(k, v, Insert(key, value, rest)) else Member(key, value, ms)
  }

  function Sort(ms: Members): Members {
    match ms
    case End => End
    case Member(k, v, rest) => Insert(k, v, Sort(rest))
  }

  /** Keys strictly increase. */
  predicate Sorted(ms: Members) {
    ms.Member? ==> Sorted(ms.rest) && (ms.rest.Member? ==> Less(ms.key, ms.rest.key))
  }

  /** The value with the keys of every object in order. */
  function Norm(v: Json): Json {
    match v
    case Arr(items) => Arr(NormItems(items))
    case Obj(ms) => Obj(Sort(NormMembers(ms)))
    case _ => v
  }

  function NormItems(items: Items): Items {
    match items
    case Nil => Nil
    case Cons(head, tail) => Cons(Norm(head), NormItems(tail))
  }

  function NormMembers(ms: Members): Members {
    match ms
    case End => End
    case Member(k, v, rest) => Member(k, Norm(v), NormMembers(rest))
  }

  predicate Ordered(v: Json) {
    match v
    case Arr(items) => OrderedItems(items)
    case Obj(ms) => Sorted(ms) && OrderedMembers(ms)
    case _ => true
  }

  predicate OrderedItems(items: Items) {
    items.Cons? ==> Ordered(items.head) && OrderedItems(items.tail)
  }

  predicate OrderedMembers(ms: Members) {
    ms.Member? ==> Ordered(ms.value) && OrderedMembers(ms.rest)
  }

  // ---------------------------------------------------------------- printing

  const COMMA: byte := 44
  const COLON: byte := 58
  const OPEN_BRACKET: byte := 91
  const CLOSE_BRACKET: byte := 93
  const OPEN_BRACE: byte := 123
  const CLOSE_BRACE: byte := 125
  const NULL_TEXT: Bytes := [110, 117, 108, 108]
  const TRUE_TEXT: Bytes := [116, 114, 117, 101]
  const FALSE_TEXT: Bytes := [102, 97, 108, 115, 101]

  /** The value's text, members in their own order, followed by `tail`. */
  function Write(v: Json, tail: Bytes): Bytes {
    match v
    case Null => NULL_TEXT + tail
    case Bool(b) => (if b then TRUE_TEXT else FALSE_TEXT) + tail
    case Num(n) => WriteInt(n, tail)
    case Str(t) => [QUOTE] + WriteChars(t, tail)
    case Arr(items) => [OPEN_BRACKET] + if items.Nil? then [CLOSE_BRACKET] + tail else WriteItems(items, tail)
    case Obj(ms) => [OPEN_BRACE] + if ms.End? then [CLOSE_BRACE] + tail else WriteMembers(ms, tail)
  }

  function WriteItems(items: Items, tail: Bytes): Bytes
    requires items.Cons?
  {
    Write(items.head, if items.tail.Nil? then [CLOSE_BRACKET] + tail else [COMMA] + WriteItems(items.tail, tail))
  }

  function WriteMembers(ms: Members, tail: Bytes): Bytes
    requires ms.Member?
  {
    [QUOTE]
    + WriteChars(ms.key,
        [COLON]
        + Write(ms.value, if ms.rest.End? then [CLOSE_BRACE] + tail else [COMMA] + WriteMembers(ms.rest, tail)))
  }

  /** Canonical JSON. */
  function Print(v: Json): Bytes {
    Write(Norm(v), [])
  }

  // ---------------------------------------------------------------- parsing

  predicate Blank(b: byte) {
    b == 32 || b == 9 || b == 10 || b == 13
  }

  function Skip(s: Bytes): (r: Bytes)
    ensures |r| <= |s|
    ensures r != [] ==> !Blank(r[0])
  {
    if s != [] && Blank(s[0]) then Skip(s[1..]) else s
  }

  function ParseWord(word: Bytes, v: Json, s: Bytes): (r: Option<(Json, Bytes)>)
    requires word != []
    ensures r.Some? ==> |r.value.1| < |s|
  {
    if word <= s then Some((v, s[|word|..])) else None
  }

  /** Reads one value; white space is skipped and keys may come in any order, but not twice. */
  function ParseValue(text: Bytes): (r: Option<(Json, Bytes)>)
    ensures r.Some? ==> |r.value.1| < |text|
    decreases |text|, 0
  {
    var s := Skip(text);
    if s == [] then None
    else if s[0] == QUOTE then
      match ParseChars(s[1..])
      case None => None
      case Some((t, rest)) => Some((Str(t), rest))
    else if s[0] == OPEN_BRACKET then
      var inner := Skip(s[1..]);
      if inner != [] && inner[0] == CLOSE_BRACKET then Some((Arr(Nil), inner[1..]))
      else
        (match ParseItems(inner)
         case None => None
         case Some((items, rest)) => Some((Arr(items), rest)))
    else if s[0] == OPEN_BRACE then
      var inner := Skip(s[1..]);
      if inner != [] && inner[0] == CLOSE_BRACE then Some((Obj(End), inner[1..]))
      else
        (match ParseMembers(inner)
         case None => None
         case Some((ms, rest)) => if DistinctKeys(ms) then Some((Obj(ms), rest)) else None)
    else if s[0] == NULL_TEXT[0] then ParseWord(NULL_TEXT, Null, s)
    else if s[0] == TRUE_TEXT[0] then ParseWord(TRUE_TEXT, Bool(true), s)
    else if s[0] == FALSE_TEXT[0] then ParseWord(FALSE_TEXT, Bool(false), s)
    else
      match ParseInt(s)
      case None => None
      case Some((n, rest)) => Some((Num(n), rest))
  }

  /** Reads values and commas up to the closing bracket. */
  function ParseItems(s: Bytes): (r: Option<(Items, Bytes)>)
    ensures r.Some? ==> |r.value.1| < |s|
    decreases |s|, 1
  {
    match ParseValue(s)
    case None => None
    case Some((v, rest)) =>
      var next := Skip(rest);
      if next == [] then None
      else if next[0] == CLOSE_BRACKET then Some((Cons(v, Nil), next[1..]))
      else if next[0] == COMMA then
        match ParseItems(next[1..])
        case None => None
        case Some((items, last)) => Some((Cons(v, items), last))
      else None
  }

  /** Reads a key and its colon. */
  function ParseKey(text: Bytes): (r: Option<(Text, Bytes)>)
    ensures r.Some? ==> |r.value.1| < |text|
  {
    var s := Skip(text);
    if s == [] || s[0] != QUOTE then None
    else
      match ParseChars(s[1..])
      case None => None
      case Some((key, rest)) =>
        var next := Skip(rest);
        if next != [] && next[0] == COLON then Some((key, next[1..])) else None
  }

  /** Reads members and commas up to the closing brace. */
  function ParseMembers(s: Bytes): (r: Option<(Members, Bytes)>)
    ensures r.Some? ==> |r.value.1| < |s|
    decreases |s|, 1
  {
    match ParseKey(s)
    case None => None
    case Some((key, body)) =>
      match ParseValue(body)
      case None => None
      case Some((v, rest)) =>
        var next := Skip(rest);
        if next == [] then None
        else if next[0] == CLOSE_BRACE then Some((Member(key, v, End), next[1..]))
        else if next[0] == COMMA then
          match ParseMembers(next[1..])
          case None => None
          case Some((ms, last)) => Some((Member(key, v, ms), last))
        else None
  }

  /** One value and nothing but white space around it. */
  function ParseDocument(raw: Bytes): Option<Json> {
    match ParseValue(raw)
    case None => None
    case Some((v, rest)) => if Skip(rest) == [] then Some(v) else None
  }

  // ---------------------------------------------------------------- the operations of the source

  function Append(ms: Members, key: Text, value: Json): Members {
    match ms
    case End => Member(key, value, End)
    case Member(k, v, rest) => Member(k, v, Append(rest, key, value))
  }

  function Concat(a: Members, b: Members): Members {
    match a
    case End => b
    case Member(k, v, rest) => Member(k, v, Concat(rest, b))
  }

  /** Collects decoded pairs into a dictionary, refusing the first repeated key. */
  method NoDuplicatePairs(pairs: Members) returns (r: Result<Members>)
    ensures r.Ok? <==> DistinctKeys(pairs)
    ensures r.Ok? ==> r.value == pairs
  {
    var result, left := End, pairs;
    while left.Member?
      invariant Concat(result, left) == pairs
      invariant DistinctKeys(pairs) <==> DistinctKeys(left) && Keys(result) !! Keys(left)
      decreases left
    {
      if left.key in Keys(result) {
        return Err("duplicate JSON key");
      }
      AppendStep(result, left.key, left.value, left.rest);
      result := Append(result, left.key, left.value);
      left := left.rest;
    }
    ConcatEnd(result);
    return Ok(result);
  }

  lemma {:induction false} AppendStep(ms: Members, key: Text, value: Json, rest: Members)
    ensures Concat(Append(ms, key, value), rest) == Concat(ms, Member(key, value, rest))
    ensures Keys(Append(ms, key, value)) == Keys(ms) + {key}
  {
    if ms.Member? {
      AppendStep(ms.rest, key, value, rest);
    }
  }

  lemma {:induction false} ConcatEnd(ms: Members)
    ensures Concat(ms, End) == ms
  {
    if ms.Member? {
      ConcatEnd(ms.rest);
    }
  }
}
