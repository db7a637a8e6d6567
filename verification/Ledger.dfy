/**
 Coins, spends and bundles, and the conservation law of a closed bundle.
 */
module Ledger {
  import opened Hashing
  import opened Clvm
  import opened Sequences

  datatype Coin = Coin(parent: Bytes32, puzzleHash: Bytes32, amount: nat)

  function CoinPreimage(c: Coin): Bytes {
    c.parent + c.puzzleHash + IntToAtom(c.amount)
  }

  /** The coin id. */
  function Name(c: Coin): Bytes32 {
    Sha256(CoinPreimage(c))
  }

  lemma CoinPreimageInjective(c: Coin, d: Coin)
    requires CoinPreimage(c) == CoinPreimage(d)
    ensures c == d
  {
    SplitEqual(c.parent + c.puzzleHash, IntToAtom(c.amount), d.parent + d.puzzleHash, IntToAtom(d.amount));
    SplitEqual(c.parent, c.puzzleHash, d.parent, d.puzzleHash);
    IntRoundTrip(c.amount);
    IntRoundTrip(d.amount);
  }

  /** Two different coins with one id. */
  predicate SameName(c: Coin, d: Coin) {
    Clash(CoinPreimage(c), CoinPreimage(d))
  }

  lemma NamesTellCoinsApart(c: Coin, d: Coin)
    ensures c != d && Name(c) == Name(d) <==> SameName(c, d)
  {
    if CoinPreimage(c) == CoinPreimage(d) {
      CoinPreimageInjective(c, d);
    }
  }

  datatype Output = Output(puzzleHash: Bytes32, amount: nat)

  /** One coin spent: what it creates, which announcements it asserts, and which messages it announces. */
  datatype Spend = Spend(coin: Coin, outputs: seq<Output>, asserts: seq<Bytes32>, announces: seq<Bytes32>)

  function Made(s: Spend): seq<Coin> {
    seq(|s.outputs|, i requires 0 <= i < |s.outputs| =>
      Coin(Name(s.coin), s.outputs[i].puzzleHash, s.outputs[i].amount))
  }

  function AnnouncementId(coin: Coin, message: Bytes32): Bytes32 {
    Sha256(Name(coin) + message)
  }

  function Coins(ss: seq<Spend>): seq<Coin> {
    seq(|ss|, i requires 0 <= i < |ss| => ss[i].coin)
  }

  function AllMade(ss: seq<Spend>): seq<Coin> {
    if ss == [] then [] else Made(ss[0]) + AllMade(ss[1..])
  }

  /** Every coin is spent once, comes from outside or from one spend of the bundle, and no coin is made twice. */
  predicate Closed(ss: seq<Spend>, funding: seq<Coin>) {
    && Distinct(Coins(ss))
    && Distinct(AllMade(ss))
    && (forall c :: c in funding ==> c in Coins(ss) && c !in AllMade(ss))
    && (forall c :: c in Coins(ss) ==> c in funding || c in AllMade(ss))
  }

  /** Two of the spent coins are different but have one id. */
  predicate SomeSameName(ss: seq<Spend>) {
    exists i, j :: 0 <= i < j < |ss| && SameName(ss[i].coin, ss[j].coin)
  }

  // ---------------------------------------------------------------- sums

  function Sum(cs: seq<Coin>): nat {
    if cs == [] then 0 else cs[0].amount + Sum(cs[1..])
  }

  function SumOutputs(os: seq<Output>): nat {
    if os == [] then 0 else os[0].amount + SumOutputs(os[1..])
  }

  /** What the spends consume and do not create. */
  function Fee(ss: seq<Spend>): int {
    if ss == [] then 0 else ss[0].coin.amount - SumOutputs(ss[0].outputs) + Fee(ss[1..])
  }

  lemma {:induction false} SumSplits(cs: seq<Coin>, ds: seq<Coin>)
    ensures Sum(cs + ds) == Sum(cs) + Sum(ds)
  {
    if cs == [] {
      assert cs + ds == ds;
    } else {
      assert (cs + ds)[1..] == cs[1..] + ds;
      SumSplits(cs[1..], ds);
    }
  }

  lemma {:induction false} FeeSplits(ss: seq<Spend>, ts: seq<Spend>)
    ensures Fee(ss + ts) == Fee(ss) + Fee(ts)
  {
    if ss == [] {
      assert ss + ts == ts;
    } else {
      assert (ss + ts)[1..] == ss[1..] + ts;
      FeeSplits(ss[1..], ts);
    }
  }

  lemma {:induction false} SumMade(s: Spend)
    ensures Sum(Made(s)) == SumOutputs(s.outputs)
    decreases |s.outputs|
  {
    if s.outputs != [] {
      var rest := s.(outputs := s.outputs[1..]);
      assert Made(s)[1..] == Made(rest);
      SumMade(rest);
    }
  }

  lemma {:induction false} FeeIsDifference(ss: seq<Spend>)
    ensures Fee(ss) == Sum(Coins(ss)) - Sum(AllMade(ss))
  {
    if ss != [] {
      FeeIsDifference(ss[1..]);
      assert Coins(ss)[1..] == Coins(ss[1..]);
      SumMade(ss[0]);
      SumSplits(Made(ss[0]), AllMade(ss[1..]));
    }
  }

  /** The coins of `cs` that are in `keep`, or those that are not. */
  function Select(cs: seq<Coin>, keep: seq<Coin>, inside: bool): seq<Coin> {
    if cs == [] then []
    else (if (cs[0] in keep) == inside then [cs[0]] else []) + Select(cs[1..], keep, inside)
  }

  lemma {:induction false} SelectMembers(cs: seq<Coin>, keep: seq<Coin>, inside: bool)
    ensures forall c :: c in Select(cs, keep, inside) <==> c in cs && (c in keep) == inside
    ensures Distinct(cs) ==> Distinct(Select(cs, keep, inside))
  {
    if cs != [] {
      SelectMembers(cs[1..], keep, inside);
      if Distinct(cs) {
        assert cs[0] !in cs[1..];
      }
    }
  }

  lemma {:induction false} SelectSplitsSum(cs: seq<Coin>, keep: seq<Coin>)
    ensures Sum(cs) == Sum(Select(cs, keep, true)) + Sum(Select(cs, keep, false))
  {
    if cs != [] {
      SelectSplitsSum(cs[1..], keep);
      SumSplits(if cs[0] in keep then [cs[0]] else [], Select(cs[1..], keep, true));
      SumSplits(if cs[0] !in keep then [cs[0]] else [], Select(cs[1..], keep, false));
    }
  }

  lemma SumWithout(cs: seq<Coin>, k: nat)
    requires k < |cs|
    ensures Sum(cs) == cs[k].amount + Sum(Without(cs, k))
  {
    assert cs == cs[..k] + cs[k..];
    SumSplits(cs[..k], cs[k..]);
    SumSplits(cs[..k], cs[k + 1..]);
    assert cs[k..][1..] == cs[k + 1..];
  }

  lemma FirstIsMember(cs: seq<Coin>)
    ensures cs != [] ==> cs[0] in cs
  {
  }

  /** Lists without repetition that hold the same coins hold the same amount. */
  lemma {:induction false} SameMembersSameSum(cs: seq<Coin>, ds: seq<Coin>)
    requires Distinct(cs) && Distinct(ds)
    requires forall c :: c in cs <==> c in ds
    ensures Sum(cs) == Sum(ds)
    decreases |cs|
  {
    if cs == [] {
      FirstIsMember(ds);
    } else {
      assert cs[0] in ds;
      var k :| 0 <= k < |ds| && ds[k] == cs[0];
      SumWithout(ds, k);
      WithoutOne(ds, k);
      WithoutOne(cs, 0);
      assert Without(cs, 0) == cs[1..];
      SameMembersSameSum(cs[1..], Without(ds, k));
    }
  }

  /** The coins the bundle leaves behind. */
  function Survivors(ss: seq<Spend>): seq<Coin> {
    Select(AllMade(ss), Coins(ss), false)
  }

  /** In a closed bundle the outside coins are worth the surviving coins and the fee. */
  lemma ClosedConserves(ss: seq<Spend>, funding: seq<Coin>)
    requires Closed(ss, funding) && Distinct(funding)
    ensures Sum(funding) == Sum(Survivors(ss)) + Fee(ss)
  {
    var spent, made := Coins(ss), AllMade(ss);
    FeeIsDifference(ss);
    SelectSplitsSum(spent, made);
    SelectSplitsSum(made, spent);
    SelectMembers(spent, made, true);
    SelectMembers(spent, made, false);
    SelectMembers(made, spent, true);
    SameMembersSameSum(Select(spent, made, true), Select(made, spent, true));
    SameMembersSameSum(Select(spent, made, false), funding);
  }

  // ---------------------------------------------------------------- distinctness

  lemma {:induction false} AllMadeMembers(ss: seq<Spend>, c: Coin)
    ensures c in AllMade(ss) <==> exists i :: 0 <= i < |ss| && c in Made(ss[i])
  {
    if ss != [] {
      AllMadeMembers(ss[1..], c);
      if c in AllMade(ss[1..]) {
        var i :| 0 <= i < |ss[1..]| && c in Made(ss[1..][i]);
        assert c in Made(ss[i + 1]);
      }
      forall i | 0 <= i < |ss| && c in Made(ss[i])
        ensures c in AllMade(ss)
      {
        if i > 0 {
          assert c in Made(ss[1..][i - 1]);
        }
      }
    }
  }

  /** No coin is made twice when every spend's outputs differ and the spent coins' ids differ. */
  lemma {:induction false} MadeOnce(ss: seq<Spend>)
    requires forall i :: 0 <= i < |ss| ==> Distinct(ss[i].outputs)
    requires forall i, j :: 0 <= i < j < |ss| ==> Name(ss[i].coin) != Name(ss[j].coin)
    ensures Distinct(AllMade(ss))
  {
    hide Name;
    if ss != [] {
      MadeOnce(ss[1..]);
      forall c | c in Made(ss[0])
        ensures c !in AllMade(ss[1..])
      {
        AllMadeMembers(ss[1..], c);
        assert forall i :: 0 <= i < |ss[1..]| ==> ss[1..][i] == ss[i + 1];
      }
      assert Distinct(Made(ss[0]));
      DistinctSplits(Made(ss[0]), AllMade(ss[1..]));
    }
  }

  /** Different spent coins have different ids, or two of them share one. */
  lemma NamesDiffer(ss: seq<Spend>)
    requires Distinct(Coins(ss))
    ensures SomeSameName(ss) || forall i, j :: 0 <= i < j < |ss| ==> Name(ss[i].coin) != Name(ss[j].coin)
  {
    forall i, j | 0 <= i < j < |ss| && Name(ss[i].coin) == Name(ss[j].coin)
      ensures SameName(ss[i].coin, ss[j].coin)
    {
      assert Coins(ss)[i] != Coins(ss)[j];
      NamesTellCoinsApart(ss[i].coin, ss[j].coin);
    }
  }
}
