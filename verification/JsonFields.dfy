/**
 JSON objects with named fields, some of them absent, and lists; what the text of such a value binds.
 */
module JsonFields {
  import opened Results
  import opened Sequences
  import opened JsonText
  import opened Json
  import opened JsonProofs
  import opened Statements

  /** A JSON value with distinct keys and clean strings. */
  type Block = j: Json | Proper(j) && CleanValue(j) witness Null

  function Chars(s: string): Text {
    seq(|s|, i requires 0 <= i < |s| => s[i] as int)
  }

  lemma CharsAreClean(s: string)
    ensures Clean(Chars(s))
  {
  }

  lemma CharsInjective(s: string, t: string)
    ensures Chars(s) == Chars(t) <==> s == t
  {
    if Chars(s) == Chars(t) {
      assert |s| == |Chars(s)| == |t|;
      forall i | 0 <= i < |s|
        ensures s[i] == t[i]
      {
        assert Chars(s)[i] == s[i] as int && Chars(t)[i] == t[i] as int;
      }
    }
  }

  function TextJson(s: string): Json {
    Str(Chars(s))
  }

  // ---------------------------------------------------------------- plain values

  /** A value that is its own ordered form. */
  predicate Plain(j: Json) {
    Norm(j) == j && Proper(j) && CleanValue(j)
  }

  function ItemsOf(js: seq<Json>): Items {
    if js == [] then Nil else Cons(js[0], ItemsOf(js[1..]))
  }

  function List(js: seq<Json>): Json {
    Arr(ItemsOf(js))
  }

  lemma {:induction false} PlainItems(js: seq<Json>)
    requires forall i :: 0 <= i < |js| ==> Plain(js[i])
    ensures NormItems(ItemsOf(js)) == ItemsOf(js) && ProperItems(ItemsOf(js)) && CleanItems(ItemsOf(js))
  {
    hide Norm, Proper, CleanValue;
    if js != [] {
      PlainItems(js[1..]);
    }
  }

  lemma PlainList(js: seq<Json>)
    requires forall i :: 0 <= i < |js| ==> Plain(js[i])
    ensures Plain(List(js))
  {
    PlainItems(js);
  }

  lemma {:induction false} ItemsInjective(js: seq<Json>, ks: seq<Json>)
    requires ItemsOf(js) == ItemsOf(ks)
    ensures js == ks
  {
    if js != [] && ks != [] {
      ItemsInjective(js[1..], ks[1..]);
      assert js == [js[0]] + js[1..] && ks == [ks[0]] + ks[1..];
    }
  }

  lemma PlainText(s: string)
    ensures Plain(TextJson(s))
  {
    CharsAreClean(s);
  }

  function Texts(ss: seq<string>): seq<Json> {
    seq(|ss|, i requires 0 <= i < |ss| => TextJson(ss[i]))
  }

  function Numbers(ns: seq<int>): seq<Json> {
    seq(|ns|, i requires 0 <= i < |ns| => Num(ns[i]))
  }

  lemma PlainTexts(ss: seq<string>)
    ensures Plain(List(Texts(ss)))
  {
    hide Plain, TextJson;
    forall i | 0 <= i < |ss|
      ensures Plain(Texts(ss)[i])
    {
      PlainText(ss[i]);
    }
    PlainList(Texts(ss));
  }

  lemma PlainNumbers(ns: seq<int>)
    ensures Plain(List(Numbers(ns)))
  {
    PlainList(Numbers(ns));
  }

  lemma TextsInjective(ss: seq<string>, ts: seq<string>)
    requires List(Texts(ss)) == List(Texts(ts))
    ensures ss == ts
  {
    hide Chars;
    ItemsInjective(Texts(ss), Texts(ts));
    assert |ss| == |Texts(ss)| == |ts|;
    forall i | 0 <= i < |ss|
      ensures ss[i] == ts[i]
    {
      assert Texts(ss)[i] == TextJson(ss[i]) && Texts(ts)[i] == TextJson(ts[i]);
      CharsInjective(ss[i], ts[i]);
    }
  }

  lemma NumbersInjective(ns: seq<int>, ms: seq<int>)
    requires List(Numbers(ns)) == List(Numbers(ms))
    ensures ns == ms
  {
    ItemsInjective(Numbers(ns), Numbers(ms));
    assert |ns| == |Numbers(ns)| == |ms|;
    assert forall i :: 0 <= i < |ns| ==> Numbers(ns)[i] == Num(ns[i]) && Numbers(ms)[i] == Num(ms[i]);
  }

  // ---------------------------------------------------------------- fields

  /** The fields that are present, in order. */
  function Fields(keys: seq<string>, vs: seq<Option<Json>>): Members
    requires |keys| == |vs|
  {
    if keys == [] then End
    else
      match vs[0]
      case None => Fields(keys[1..], vs[1..])
      case Some(v) => Member(Chars(keys[0]), v, Fields(keys[1..], vs[1..]))
  }

  predicate AllBlocks(vs: seq<Option<Json>>) {
    forall i :: 0 <= i < |vs| && vs[i].Some? ==> Proper(vs[i].value) && CleanValue(vs[i].value)
  }

  lemma {:induction false} FieldsAre(keys: seq<string>, vs: seq<Option<Json>>)
    requires |keys| == |vs| && Distinct(keys)
    ensures forall i :: 0 <= i < |keys| ==> Lookup(Fields(keys, vs), Chars(keys[i])) == vs[i]
    ensures forall k :: k in Keys(Fields(keys, vs)) ==> exists i :: 0 <= i < |keys| && k == Chars(keys[i])
    ensures DistinctKeys(Fields(keys, vs))
  {
    hide Chars;
    if keys != [] {
      var front, back := keys[0], keys[1..];
      assert forall i :: 0 <= i < |back| ==> back[i] == keys[i + 1] && vs[1..][i] == vs[i + 1];
      FieldsAre(back, vs[1..]);
      forall i | 0 <= i < |back|
        ensures Chars(back[i]) != Chars(front)
      {
        CharsInjective(back[i], front);
        assert keys[i + 1] != keys[0];
      }
      LookupKeys(Fields(back, vs[1..]), Chars(front));
      forall i | 0 <= i < |keys|
        ensures Lookup(Fields(keys, vs), Chars(keys[i])) == vs[i]
      {
        assert i > 0 ==> keys[i] == back[i - 1];
      }
    }
  }

  lemma {:induction false} FieldsAreBlocks(keys: seq<string>, vs: seq<Option<Json>>)
    requires |keys| == |vs| && AllBlocks(vs)
    ensures ProperMembers(Fields(keys, vs)) && CleanMembers(Fields(keys, vs))
  {
    hide Proper, CleanValue, Chars, Clean;
    if keys != [] {
      assert AllBlocks(vs[1..]);
      FieldsAreBlocks(keys[1..], vs[1..]);
      CharsAreClean(keys[0]);
    }
  }

  /** Both absent, or the same up to the order of keys. */
  predicate SameValue(a: Option<Json>, b: Option<Json>) {
    (a.None? && b.None?) || (a.Some? && b.Some? && Norm(a.value) == Norm(b.value))
  }

  /** Objects with the same field names are the same up to the order of keys exactly when they agree field by field. */
  lemma FieldsAgree(keys: seq<string>, vs: seq<Option<Json>>, ws: seq<Option<Json>>)
    requires |keys| == |vs| == |ws| && Distinct(keys) && AllBlocks(vs) && AllBlocks(ws)
    ensures Norm(Obj(Fields(keys, vs))) == Norm(Obj(Fields(keys, ws))) <==>
            forall i :: 0 <= i < |keys| ==> SameValue(vs[i], ws[i])
  {
    hide Fields, Norm, AllBlocks, Distinct, Chars;
    var a, b := Fields(keys, vs), Fields(keys, ws);
    FieldsAre(keys, vs);
    FieldsAre(keys, ws);
    FieldsAreBlocks(keys, vs);
    FieldsAreBlocks(keys, ws);
    SameEntriesSameNorm(a, b);
    if forall i :: 0 <= i < |keys| ==> SameValue(vs[i], ws[i]) {
      forall k
        ensures SameEntry(a, b, k)
      {
        LookupKeys(a, k);
        LookupKeys(b, k);
        if k in Keys(a) || k in Keys(b) {
          var i :| 0 <= i < |keys| && k == Chars(keys[i]);
          assert SameValue(vs[i], ws[i]);
        }
      }
    }
    if forall k :: SameEntry(a, b, k) {
      forall i | 0 <= i < |keys|
        ensures SameValue(vs[i], ws[i])
      {
        assert SameEntry(a, b, Chars(keys[i]));
      }
    }
  }

  lemma FieldsAreBlock(keys: seq<string>, vs: seq<Option<Json>>)
    requires |keys| == |vs| && Distinct(keys) && AllBlocks(vs)
    ensures Proper(Obj(Fields(keys, vs))) && CleanValue(Obj(Fields(keys, vs)))
  {
    FieldsAre(keys, vs);
    FieldsAreBlocks(keys, vs);
  }

  // ---------------------------------------------------------------- distinct names

  /** Length first, then the first two letters: enough to tell the names of a short list apart. */
  function Mark(s: string): int
    requires |s| >= 2
  {
    1_000_000 * |s| + 256 * s[0] as int + s[1] as int
  }

  predicate MarksIncrease(keys: seq<string>) {
    && (forall i :: 0 <= i < |keys| ==> |keys[i]| >= 2)
    && (forall i :: 0 <= i < |keys| - 1 ==> Mark(keys[i]) < Mark(keys[i + 1]))
  }

  lemma {:induction false} MarksTellApart(keys: seq<string>)
    requires MarksIncrease(keys)
    ensures Distinct(keys)
    ensures forall i :: 0 <= i < |keys| - 1 ==> Mark(keys[i]) < Mark(keys[|keys| - 1])
  {
    hide Mark;
    if |keys| > 1 {
      var n := |keys| - 1;
      var front := keys[..n];
      assert forall i :: 0 <= i < n ==> front[i] == keys[i];
      forall i | 0 <= i < n - 1
        ensures Mark(front[i]) < Mark(front[i + 1])
      {
        assert Mark(keys[i]) < Mark(keys[i + 1]);
      }
      MarksTellApart(front);
      assert Mark(keys[n - 1]) < Mark(keys[n]);
      assert front[n - 1] == keys[n - 1];
    }
  }
}
