/**
 The genesis bundle, for every batch size: which coins are spent, where they come from, and what it costs.
 */
module GenesisProofs {
  import opened Hashing
  import opened Clvm
  import opened Sequences
  import opened Ledger
  import opened Genesis

  /** The funding coins exist before the bundle: none of them is a child of a coin the bundle spends. */
  predicate Preexisting(ss: seq<Spend>, funding: seq<Coin>) {
    forall c, d :: c in funding && d in Coins(ss) ==> c.parent != Name(d)
  }

  // ---------------------------------------------------------------- segments

  lemma CoinsSplit(a: seq<Spend>, b: seq<Spend>)
    ensures Coins(a + b) == Coins(a) + Coins(b)
  {
  }

  lemma {:induction false} AllMadeSplits(a: seq<Spend>, b: seq<Spend>)
    ensures AllMade(a + b) == AllMade(a) + AllMade(b)
  {
    hide Made;
    if a == [] {
      assert a + b == b;
    } else {
      assert (a + b)[1..] == a[1..] + b;
      AllMadeSplits(a[1..], b);
      assert AllMade(a + b) == Made(a[0]) + (AllMade(a[1..]) + AllMade(b));
    }
  }

  lemma AllMadeOfTwo(s: Spend, t: Spend)
    ensures AllMade([s, t]) == Made(s) + Made(t)
  {
    hide Made;
    assert [s, t][1..] == [t];
    assert AllMade([t]) == Made(t) + AllMade([t][1..]);
  }

  /** `c` is one of the owners, or a child of one. */
  predicate Owned(c: Coin, owners: seq<Coin>) {
    c in owners || exists o :: o in owners && c.parent == Name(o)
  }

  predicate AllOwned(cs: seq<Coin>, owners: seq<Coin>) {
    forall c :: c in cs ==> Owned(c, owners)
  }

  predicate Apart(xs: seq<Coin>, ys: seq<Coin>) {
    forall x, y :: x in xs && y in ys ==> Name(x) != Name(y)
  }

  /** No coin of the list is a child of a coin of the list. */
  predicate Unrelated(funding: seq<Coin>) {
    forall c, d :: c in funding && d in funding ==> c.parent != Name(d)
  }

  predicate Within(xs: seq<Coin>, ys: seq<Coin>) {
    forall x :: x in xs ==> x in ys
  }

  lemma OwnedByOthers(cs: seq<Coin>, ds: seq<Coin>, co: seq<Coin>, do: seq<Coin>, funding: seq<Coin>)
    requires AllOwned(cs, co) && AllOwned(ds, do) && Apart(co, do)
    requires Within(co, funding) && Within(do, funding) && Unrelated(funding)
    ensures Disjoint(cs, ds)
  {
    hide Name;
  }

  lemma OwnedUnion(cs: seq<Coin>, ds: seq<Coin>, co: seq<Coin>, do: seq<Coin>)
    requires AllOwned(cs, co) && AllOwned(ds, do)
    ensures AllOwned(cs + ds, co + do)
  {
    hide Name;
    forall c | c in cs + ds
      ensures Owned(c, co + do)
    {
      if c in cs {
        assert Owned(c, co);
      } else {
        assert Owned(c, do);
      }
    }
  }

  /** Every spent coin of the list is a funding coin or made by a spend of the list. */
  predicate SelfMade(ss: seq<Spend>, funding: seq<Coin>) {
    forall c :: c in Coins(ss) ==> c in funding || c in AllMade(ss)
  }

  lemma SelfMadeUnion(a: seq<Spend>, b: seq<Spend>, funding: seq<Coin>)
    requires SelfMade(a, funding) && SelfMade(b, funding)
    ensures SelfMade(a + b, funding)
  {
    CoinsSplit(a, b);
    AllMadeSplits(a, b);
  }

  predicate OutputsDiffer(ss: seq<Spend>) {
    forall s :: s in ss ==> Distinct(s.outputs)
  }

  /** What holds of a segment whose spends revolve around the coins of `owners`. */
  predicate GoodSegment(ss: seq<Spend>, owners: seq<Coin>, funding: seq<Coin>) {
    && Within(owners, funding)
    && Within(owners, Coins(ss))
    && AllOwned(Coins(ss), owners)
    && Distinct(Coins(ss))
    && SelfMade(ss, funding)
  }

  lemma GoodUnion(a: seq<Spend>, b: seq<Spend>, ao: seq<Coin>, bo: seq<Coin>, funding: seq<Coin>)
    requires GoodSegment(a, ao, funding) && GoodSegment(b, bo, funding) && Apart(ao, bo) && Unrelated(funding)
    ensures GoodSegment(a + b, ao + bo, funding)
  {
    hide Name, Owned, AllMade, Apart, Unrelated, Disjoint, Distinct, SelfMade, Coins, AllOwned;
    CoinsSplit(a, b);
    OwnedByOthers(Coins(a), Coins(b), ao, bo, funding);
    OwnedUnion(Coins(a), Coins(b), ao, bo);
    DistinctSplits(Coins(a), Coins(b));
    SelfMadeUnion(a, b, funding);
  }

  /** A funding coin and a coin it makes. */
  lemma PairIsGood(s: Spend, t: Spend, funding: seq<Coin>)
    requires s.coin in funding && Unrelated(funding) && t.coin in Made(s)
    ensures GoodSegment([s, t], [s.coin], funding)
  {
    hide Name;
    AllMadeOfTwo(s, t);
    assert Coins([s, t]) == [s.coin, t.coin];
    assert Owned(s.coin, [s.coin]) && Owned(t.coin, [s.coin]);
  }

  lemma MadeHas(s: Spend, o: Output)
    requires o in s.outputs
    ensures Coin(Name(s.coin), o.puzzleHash, o.amount) in Made(s)
  {
    hide Name;
    var i :| 0 <= i < |s.outputs| && s.outputs[i] == o;
    assert Made(s)[i] == Coin(Name(s.coin), o.puzzleHash, o.amount);
  }

  lemma IssueIsGood(p: Plan, iss: Issuance, faucet: Bytes32, f: Funding, funding: seq<Coin>)
    requires p.totalSupply <= f.sgt.amount && f.sgt in funding && Unrelated(funding)
    ensures GoodSegment(IssueSegment(p, iss, faucet, f), [f.sgt], funding)
  {
    hide Name, GoodSegment;
    var ss := IssueSegment(p, iss, faucet, f);
    MadeHas(ss[0], Output(iss.evePuzzleHash, p.totalSupply));
    PairIsGood(ss[0], ss[1], funding);
  }

  lemma PoolIsGood(p: Plan, f: Funding, funding: seq<Coin>)
    requires f.pool in funding && Unrelated(funding)
    ensures GoodSegment(PoolSegment(p, f), [f.pool], funding)
  {
    hide Name, GoodSegment, LauncherAssertion, LauncherMessage;
    var ss := PoolSegment(p, f);
    MadeHas(ss[0], Output(LAUNCHER, 1));
    PairIsGood(ss[0], ss[1], funding);
  }

  function Owners(inputs: seq<(Coin, Surface)>): seq<Coin> {
    seq(|inputs|, i requires 0 <= i < |inputs| => inputs[i].0)
  }

  lemma {:induction false} SingletonsAreGood(faucet: Bytes32, inputs: seq<(Coin, Surface)>, funding: seq<Coin>)
    requires SingletonsMatch(inputs) && Within(Owners(inputs), funding) && Unrelated(funding)
    requires NamesDistinct(Owners(inputs))
    ensures GoodSegment(SingletonSegment(faucet, inputs), Owners(inputs), funding)
  {
    hide Name, GoodSegment, LauncherMatches, SingletonPair, NamesDistinct, Apart;
    if inputs == [] {
      EmptyIsGood(funding);
      assert Owners(inputs) == [];
    } else {
      var n := |inputs| - 1;
      assert Owners(inputs) == Owners(inputs[..n]) + [inputs[n].0];
      NamesDistinctSplit(Owners(inputs[..n]), [inputs[n].0]);
      SingletonsAreGood(faucet, inputs[..n], funding);
      assert inputs[n].0 in Owners(inputs);
      SingletonPairIsGood(faucet, inputs[n].0, inputs[n].1, funding);
      GoodUnion(SingletonSegment(faucet, inputs[..n]), SingletonPair(faucet, inputs[n].0, inputs[n].1),
                Owners(inputs[..n]), [inputs[n].0], funding);
    }
  }

  lemma EmptyIsGood(funding: seq<Coin>)
    ensures GoodSegment([], [], funding)
  {
  }

  lemma SingletonPairIsGood(faucet: Bytes32, coin: Coin, s: Surface, funding: seq<Coin>)
    requires coin.amount >= 1 && coin in funding && Unrelated(funding)
    ensures GoodSegment(SingletonPair(faucet, coin, s), [coin], funding)
  {
    hide Name, GoodSegment, LauncherAssertion, LauncherMessage;
    var ss := SingletonPair(faucet, coin, s);
    MadeHas(ss[0], Output(LAUNCHER, 1));
    PairIsGood(ss[0], ss[1], funding);
  }

  lemma AuthorityIsGood(p: Plan, f: Funding, funding: seq<Coin>)
    requires |p.identities| == 3 && f.authority in funding && Unrelated(funding)
    ensures GoodSegment(AuthoritySegment(p, f), [f.authority], funding)
  {
    hide Name, LauncherAssertion, LauncherMessage, LauncherAssertions;
    var ss := AuthoritySegment(p, f);
    var last := ss[4];
    assert ss == ss[..4] + [last];
    AllMadeSplits(ss[..4], [last]);
    assert AllMade([last]) == Made(last) + AllMade([last][1..]);
    MadeHas(last, Output(LAUNCHER, 1));
    MadeHas(last, Output(LAUNCHER, 3));
    MadeHas(last, Output(LAUNCHER, 5));
    MadeHas(last, Output(LAUNCHER, 7));
    assert Coins(ss) == [LauncherCoin(f.authority, 1), LauncherCoin(f.authority, 3), LauncherCoin(f.authority, 5),
                         LauncherCoin(f.authority, 7), f.authority];
  }

  /** The batch with its parents; the parents are made exactly when the plan's faucet is the ceremony's. */
  lemma BatchIsGood(p: Plan, faucet: Bytes32, f: Funding, n: nat, funding: seq<Coin>)
    requires Planned(p, f, n) && f.bridge in funding && Unrelated(funding)
    requires p.faucet == faucet != LAUNCHER
    ensures GoodSegment(BatchSegment(p, faucet, f) + ParentSegment(p.policyHash, faucet, p.parents),
                        [f.bridge], funding)
  {
    hide Name, LauncherAssertion, LauncherMessage, ParentSpend;
    var batch, parents := BatchSegment(p, faucet, f), ParentSegment(p.policyHash, faucet, p.parents);
    CoinsSplit(batch, parents);
    AllMadeSplits(batch, parents);
    AllMadeOfTwo(batch[0], batch[1]);
    assert Coins(batch) == [f.bridge, LauncherCoin(f.bridge, 1)];
    ParentCoins(p.policyHash, faucet, p.parents);
    assert batch[0].outputs[|p.parents|] == Output(LAUNCHER, 1);
    MadeHas(batch[0], Output(LAUNCHER, 1));
    forall c | c in p.parents
      ensures c in Made(batch[0]) && c.parent == Name(f.bridge) && c.puzzleHash == faucet
    {
      var i :| 0 <= i < |p.parents| && p.parents[i] == c;
      assert batch[0].outputs[i] == Output(faucet, c.amount);
      MadeHas(batch[0], Output(faucet, c.amount));
    }
    assert Distinct(p.parents);
    DistinctSplits(Coins(batch), p.parents);
  }

  lemma ParentCoins(policy: Bytes32, faucet: Bytes32, parents: seq<Coin>)
    ensures Coins(ParentSegment(policy, faucet, parents)) == parents
  {
  }

  // ---------------------------------------------------------------- the whole bundle

  /** The bundle from the authority on, from the plain singletons on, and from the pool on. */
  function FromBatch(p: Plan, faucet: Bytes32, f: Funding): seq<Spend> {
    BatchSegment(p, faucet, f) + ParentSegment(p.policyHash, faucet, p.parents)
  }

  function FromAuthority(p: Plan, faucet: Bytes32, f: Funding): seq<Spend>
    requires |p.identities| == 3
  {
    AuthoritySegment(p, f) + FromBatch(p, faucet, f)
  }

  function FromSingles(p: Plan, faucet: Bytes32, f: Funding): seq<Spend>
    requires SingletonsMatch(SingletonInputs(p, f)) && |p.identities| == 3
  {
    SingletonSegment(faucet, SingletonInputs(p, f)) + FromAuthority(p, faucet, f)
  }

  function FromPool(p: Plan, faucet: Bytes32, f: Funding): seq<Spend>
    requires SingletonsMatch(SingletonInputs(p, f)) && |p.identities| == 3
  {
    PoolSegment(p, f) + FromSingles(p, faucet, f)
  }

  /** The segments, last one first joined, revolve around their funding coins. */
  lemma SegmentsAreGood(p: Plan, iss: Issuance, faucet: Bytes32, f: Funding, n: nat)
    requires Accepts(p, iss, faucet, f, n) && Planned(p, f, n) && p.faucet == faucet != LAUNCHER
    requires Unrelated(f.All())
    ensures GoodSegment(IssueSegment(p, iss, faucet, f), [f.sgt], f.All())
    ensures GoodSegment(PoolSegment(p, f), [f.pool], f.All())
    ensures GoodSegment(SingletonSegment(faucet, SingletonInputs(p, f)), Singles(f), f.All())
    ensures GoodSegment(AuthoritySegment(p, f), [f.authority], f.All())
    ensures GoodSegment(FromBatch(p, faucet, f), [f.bridge], f.All())
    ensures GoodSegment(FromAuthority(p, faucet, f), [f.authority] + [f.bridge], f.All())
    ensures GoodSegment(FromSingles(p, faucet, f), Singles(f) + ([f.authority] + [f.bridge]), f.All())
    ensures GoodSegment(FromPool(p, faucet, f), [f.pool] + (Singles(f) + ([f.authority] + [f.bridge])), f.All())
  {
    hide Name, GoodSegment, Unrelated, Planned, IssueSegment, PoolSegment, AuthoritySegment, BatchSegment,
      ParentSegment, SingletonSegment, SingletonsMatch, LauncherMatches, AuthorityMatches, LineageMatches, Apart,
      BatchFunding, Distinct, NamesDistinct;
    var all := f.All();
    assert Within(all, all);
    NamesApart(p, iss, faucet, f, n);
    IssueIsGood(p, iss, faucet, f, all);
    PoolIsGood(p, f, all);
    assert Owners(SingletonInputs(p, f)) == Singles(f);
    SingletonsAreGood(faucet, SingletonInputs(p, f), all);
    AuthorityIsGood(p, f, all);
    BatchIsGood(p, faucet, f, n, all);
    GoodUnion(AuthoritySegment(p, f), FromBatch(p, faucet, f), [f.authority], [f.bridge], all);
    GoodUnion(SingletonSegment(faucet, SingletonInputs(p, f)), FromAuthority(p, faucet, f), Singles(f),
              [f.authority] + [f.bridge], all);
    GoodUnion(PoolSegment(p, f), FromSingles(p, faucet, f), [f.pool], Singles(f) + ([f.authority] + [f.bridge]), all);
  }

  /** The whole bundle revolves around the nine funding coins. */
  lemma BundleIsGood(p: Plan, iss: Issuance, faucet: Bytes32, f: Funding, n: nat)
    requires Accepts(p, iss, faucet, f, n) && Planned(p, f, n) && p.faucet == faucet != LAUNCHER
    requires Unrelated(f.All())
    ensures GoodSegment(Bundle(p, iss, faucet, f), f.All(), f.All())
  {
    hide Name, GoodSegment, Unrelated, Planned, IssueSegment, PoolSegment, AuthoritySegment, BatchSegment,
      ParentSegment, SingletonSegment, SingletonsMatch, LauncherMatches, AuthorityMatches, LineageMatches, Apart,
      BatchFunding, Distinct, NamesDistinct;
    var all := f.All();
    NamesApart(p, iss, faucet, f, n);
    SegmentsAreGood(p, iss, faucet, f, n);
    var owners := [f.pool] + (Singles(f) + ([f.authority] + [f.bridge]));
    GoodUnion(IssueSegment(p, iss, faucet, f), FromPool(p, faucet, f), [f.sgt], owners, all);
    GoodReorder(Bundle(p, iss, faucet, f), [f.sgt] + owners, all, all);
  }

  function Singles(f: Funding): seq<Coin> {
    [f.did, f.governance, f.statutes, f.config, f.vaultRegistry]
  }

  lemma GoodReorder(ss: seq<Spend>, xs: seq<Coin>, ys: seq<Coin>, funding: seq<Coin>)
    requires GoodSegment(ss, xs, funding) && Within(xs, ys) && Within(ys, xs)
    ensures GoodSegment(ss, ys, funding)
  {
    hide Name;
    forall c | c in Coins(ss)
      ensures Owned(c, ys)
    {
      assert Owned(c, xs);
    }
  }

  predicate NamesDistinct(cs: seq<Coin>) {
    forall i, j :: 0 <= i < j < |cs| ==> Name(cs[i]) != Name(cs[j])
  }

  lemma NamesDistinctSplit(xs: seq<Coin>, ys: seq<Coin>)
    requires NamesDistinct(xs + ys)
    ensures Apart(xs, ys) && NamesDistinct(xs) && NamesDistinct(ys)
  {
    hide Name;
    var zs := xs + ys;
    assert forall i :: 0 <= i < |xs| ==> zs[i] == xs[i];
    assert forall j :: 0 <= j < |ys| ==> zs[|xs| + j] == ys[j];
    forall i, j | 0 <= i < |xs| && 0 <= j < |ys|
      ensures Name(xs[i]) != Name(ys[j])
    {
      assert Name(zs[i]) != Name(zs[|xs| + j]);
    }
    forall i, j | 0 <= i < j < |ys|
      ensures Name(ys[i]) != Name(ys[j])
    {
      assert Name(zs[|xs| + i]) != Name(zs[|xs| + j]);
    }
  }

  /** The plan's funding ids are pairwise different, hence so are the coins that carry them. */
  lemma NamesApart(p: Plan, iss: Issuance, faucet: Bytes32, f: Funding, n: nat)
    requires FundingAccepted(p, iss, faucet, f, n)
    ensures NamesDistinct(f.All())
    ensures Apart([f.authority], [f.bridge])
    ensures Apart(Singles(f), [f.authority] + [f.bridge])
    ensures Apart([f.pool], Singles(f) + ([f.authority] + [f.bridge]))
    ensures Apart([f.sgt], [f.pool] + (Singles(f) + ([f.authority] + [f.bridge])))
    ensures NamesDistinct(Singles(f))
  {
    hide Name, BatchFunding, Apart, NamesDistinct;
    var all, ids := f.All(), p.fundingIds;
    assert NamesDistinct(all) by {
      NamesDistinctFromIds(all, ids);
    }
    var ab := [f.authority] + [f.bridge];
    var order := [f.sgt] + ([f.pool] + (Singles(f) + ab));
    SwapKeepsDistinct(all, order);
    NamesDistinctSplit([f.sgt], [f.pool] + (Singles(f) + ab));
    NamesDistinctSplit([f.pool], Singles(f) + ab);
    NamesDistinctSplit(Singles(f), ab);
    NamesDistinctSplit([f.authority], [f.bridge]);
  }

  lemma NamesDistinctFromIds(cs: seq<Coin>, ids: seq<Bytes32>)
    requires ids == Names(cs) && Distinct(ids)
    ensures NamesDistinct(cs)
  {
    hide Name;
    assert forall i :: 0 <= i < |cs| ==> ids[i] == Name(cs[i]);
  }

  lemma SwapKeepsDistinct(cs: seq<Coin>, ds: seq<Coin>)
    requires |cs| == |ds| == 9 && NamesDistinct(cs)
    requires forall i :: 0 <= i < 9 ==> ds[i] == if i == 6 then cs[7] else if i == 7 then cs[6] else cs[i]
    ensures NamesDistinct(ds)
  {
    hide Name;
  }

  /** Accepted funding is nine different coins, and a plan accepts only one such nine, or two coins share an id. */
  lemma PlanFixesFunding(p: Plan, iss: Issuance, faucet: Bytes32, f: Funding, n: nat,
                         iss': Issuance, faucet': Bytes32, f': Funding, n': nat)
    requires FundingAccepted(p, iss, faucet, f, n) && FundingAccepted(p, iss', faucet', f', n')
    ensures Distinct(f.All())
    ensures f == f' || exists i :: 0 <= i < 9 && SameName(f.All()[i], f'.All()[i])
  {
    hide Name, BatchFunding, SameName, NamesDistinct;
    NamesApart(p, iss, faucet, f, n);
    CoinsDistinct(f.All());
    var a, b := f.All(), f'.All();
    forall i | 0 <= i < 9
      ensures a[i] == b[i] || SameName(a[i], b[i])
    {
      assert p.fundingIds[i] == Name(a[i]) == Name(b[i]);
      NamesTellCoinsApart(a[i], b[i]);
    }
    if forall i :: 0 <= i < 9 ==> a[i] == b[i] {
      assert a[0] == b[0] && a[1] == b[1] && a[2] == b[2] && a[3] == b[3] && a[4] == b[4];
      assert a[5] == b[5] && a[6] == b[6] && a[7] == b[7] && a[8] == b[8];
    }
  }

  // ---------------------------------------------------------------- which outputs coincide

  lemma OutputsDifferSplits(a: seq<Spend>, b: seq<Spend>)
    ensures OutputsDiffer(a + b) <==> OutputsDiffer(a) && OutputsDiffer(b)
  {
    hide Distinct;
    assert forall s :: s in a || s in b ==> s in a + b;
  }

  lemma OutputsDifferOfTwo(s: Spend, t: Spend)
    ensures OutputsDiffer([s, t]) <==> Distinct(s.outputs) && Distinct(t.outputs)
  {
    hide Distinct;
    assert s in [s, t] && t in [s, t];
  }

  /** The supply and the change of the SGT coin go to one puzzle with one amount. */
  predicate IssueRepeats(p: Plan, iss: Issuance, faucet: Bytes32, f: Funding) {
    iss.evePuzzleHash == faucet && 0 < p.totalSupply == f.sgt.amount - p.totalSupply
  }

  lemma IssueOutputs(p: Plan, iss: Issuance, faucet: Bytes32, f: Funding)
    requires p.totalSupply <= f.sgt.amount
    ensures OutputsDiffer(IssueSegment(p, iss, faucet, f)) <==> !IssueRepeats(p, iss, faucet, f)
  {
    hide Name;
    var ss := IssueSegment(p, iss, faucet, f);
    OutputsDifferOfTwo(ss[0], ss[1]);
    var o := ss[0].outputs;
    assert |o| == 2 ==> (Distinct(o) <==> o[0] != o[1]);
  }

  lemma PoolOutputs(p: Plan, f: Funding)
    ensures OutputsDiffer(PoolSegment(p, f)) <==> p.seedPuzzleHash != LAUNCHER
  {
    hide Name, LauncherAssertion, LauncherMessage;
    var ss := PoolSegment(p, f);
    OutputsDifferOfTwo(ss[0], ss[1]);
    var o := ss[0].outputs;
    assert Distinct(o) <==> o[0] != o[1];
  }

  lemma {:induction false} SingletonOutputs(faucet: Bytes32, inputs: seq<(Coin, Surface)>)
    requires SingletonsMatch(inputs) && faucet != LAUNCHER
    ensures OutputsDiffer(SingletonSegment(faucet, inputs))
  {
    hide Name, LauncherAssertion, LauncherMessage, LauncherMatches, OutputsDiffer;
    if inputs == [] {
      assert OutputsDiffer([]) by { NoSpends(); }
    } else {
      var n := |inputs| - 1;
      SingletonOutputs(faucet, inputs[..n]);
      var ss := SingletonPair(faucet, inputs[n].0, inputs[n].1);
      OutputsDifferSplits(SingletonSegment(faucet, inputs[..n]), ss);
      OutputsDifferOfTwo(ss[0], ss[1]);
    }
  }

  lemma NoSpends()
    ensures OutputsDiffer([])
  {
  }

  lemma AuthorityOutputs(p: Plan, f: Funding)
    requires |p.identities| == 3
    ensures OutputsDiffer(AuthoritySegment(p, f))
  {
    hide Name, LauncherAssertion, LauncherMessage, LauncherAssertions;
  }

  lemma BatchOutputs(p: Plan, faucet: Bytes32, f: Funding, n: nat)
    requires Planned(p, f, n)
    ensures OutputsDiffer(BatchSegment(p, faucet, f)) <==> faucet != LAUNCHER || n == 0
  {
    hide Name, LauncherAssertion, LauncherMessage;
    var ss := BatchSegment(p, faucet, f);
    OutputsDifferOfTwo(ss[0], ss[1]);
    var o := ss[0].outputs;
    assert |o| == n + 1 && o[n] == Output(LAUNCHER, 1);
    assert forall i :: 0 <= i < n ==> o[i] == Output(faucet, i + 1);
    assert n > 0 ==> (o[0] != o[n] <==> faucet != LAUNCHER);
  }

  lemma ParentOutputsDiffer(p: Plan, faucet: Bytes32, f: Funding, n: nat)
    requires Planned(p, f, n)
    ensures OutputsDiffer(ParentSegment(p.policyHash, faucet, p.parents)) <==> p.policyHash != faucet || n < 2
  {
    hide Name;
    var ss := ParentSegment(p.policyHash, faucet, p.parents);
    assert forall i :: 0 <= i < n ==> p.parents[i].amount == i + 1;
    if n >= 2 {
      var o := ss[1].outputs;
      assert ss[1] in ss && o == [Output(p.policyHash, 1), Output(faucet, 1)];
      assert Distinct(o) <==> o[0] != o[1];
    }
  }

  /** What the builder does not check: hashes that differ in every plan the release signs. */
  predicate HashesFit(p: Plan, iss: Issuance, faucet: Bytes32, f: Funding) {
    && faucet != LAUNCHER
    && p.seedPuzzleHash != LAUNCHER
    && p.policyHash != faucet
    && !IssueRepeats(p, iss, faucet, f)
  }

  lemma BundleOutputs(p: Plan, iss: Issuance, faucet: Bytes32, f: Funding, n: nat)
    requires Accepts(p, iss, faucet, f, n) && Planned(p, f, n)
    ensures HashesFit(p, iss, faucet, f) ==> OutputsDiffer(Bundle(p, iss, faucet, f))
    ensures n >= 2 && OutputsDiffer(Bundle(p, iss, faucet, f)) ==> HashesFit(p, iss, faucet, f)
  {
    hide Name, OutputsDiffer, Planned, IssueSegment, PoolSegment, AuthoritySegment, BatchSegment, ParentSegment,
      SingletonSegment, SingletonsMatch, LauncherMatches, AuthorityMatches, LineageMatches, BatchFunding, Distinct,
      IssueRepeats, SingletonInputs;
    var singles := SingletonSegment(faucet, SingletonInputs(p, f));
    var parents := ParentSegment(p.policyHash, faucet, p.parents);
    var authority, batch := AuthoritySegment(p, f), BatchSegment(p, faucet, f);
    OutputsDifferSplits(batch, parents);
    OutputsDifferSplits(authority, batch + parents);
    OutputsDifferSplits(singles, authority + (batch + parents));
    OutputsDifferSplits(PoolSegment(p, f), singles + (authority + (batch + parents)));
    OutputsDifferSplits(IssueSegment(p, iss, faucet, f),
      PoolSegment(p, f) + (singles + (authority + (batch + parents))));
    IssueOutputs(p, iss, faucet, f);
    PoolOutputs(p, f);
    AuthorityOutputs(p, f);
    BatchOutputs(p, faucet, f, n);
    ParentOutputsDiffer(p, faucet, f, n);
    if faucet != LAUNCHER {
      SingletonOutputs(faucet, SingletonInputs(p, f));
    }
  }

  lemma {:induction false} MadeOnceDiffers(ss: seq<Spend>)
    requires Distinct(AllMade(ss))
    ensures OutputsDiffer(ss)
  {
    hide Name;
    if ss != [] {
      DistinctSplits(Made(ss[0]), AllMade(ss[1..]));
      MadeOnceDiffers(ss[1..]);
      var o, m := ss[0].outputs, Made(ss[0]);
      assert forall i, j :: 0 <= i < j < |o| ==> m[i] != m[j] && o[i] != o[j];
      assert ss == [ss[0]] + ss[1..];
    }
  }

  // ---------------------------------------------------------------- closure

  /** The outside coins are unrelated when they exist before the bundle. */
  lemma PreexistingUnrelated(ss: seq<Spend>, funding: seq<Coin>)
    requires Preexisting(ss, funding) && Within(funding, Coins(ss))
    ensures Unrelated(funding)
    ensures forall c :: c in funding ==> c !in AllMade(ss)
  {
    hide Name;
    forall c | c in funding
      ensures c !in AllMade(ss)
    {
      AllMadeMembers(ss, c);
      forall i | 0 <= i < |ss|
        ensures c !in Made(ss[i])
      {
        assert Coins(ss)[i] == ss[i].coin;
      }
    }
  }

  /** The funding coins are spent, whatever the hashes. */
  lemma FundingIsSpent(p: Plan, iss: Issuance, faucet: Bytes32, f: Funding, n: nat)
    requires Accepts(p, iss, faucet, f, n)
    ensures Within(f.All(), Coins(Bundle(p, iss, faucet, f)))
  {
    hide Name, LauncherMatches, LauncherAssertion, LauncherMessage, LauncherAssertions, ParentSpend, BatchFunding,
      Made, AuthorityMatches, LineageMatches, Distinct, ParentSegment;
    var parents, inputs := ParentSegment(p.policyHash, faucet, p.parents), SingletonInputs(p, f);
    var authority, batch := AuthoritySegment(p, f), BatchSegment(p, faucet, f);
    var singles := SingletonSegment(faucet, inputs);
    CoinsSplit(batch, parents);
    CoinsSplit(authority, batch + parents);
    CoinsSplit(singles, authority + (batch + parents));
    CoinsSplit(PoolSegment(p, f), singles + (authority + (batch + parents)));
    CoinsSplit(IssueSegment(p, iss, faucet, f), PoolSegment(p, f) + (singles + (authority + (batch + parents))));
    assert Coins(batch)[0] == f.bridge && Coins(authority)[4] == f.authority;
    assert Coins(IssueSegment(p, iss, faucet, f))[0] == f.sgt && Coins(PoolSegment(p, f))[0] == f.pool;
    SingletonsSpent(faucet, inputs);
    assert Owners(inputs) == Singles(f);
    assert forall c :: c in f.All() ==> c in [f.sgt, f.pool, f.authority, f.bridge] || c in Singles(f);
  }

  lemma {:induction false} SingletonsSpent(faucet: Bytes32, inputs: seq<(Coin, Surface)>)
    requires SingletonsMatch(inputs)
    ensures Within(Owners(inputs), Coins(SingletonSegment(faucet, inputs)))
  {
    hide Name, LauncherMatches, LauncherAssertion, LauncherSpend;
    if inputs != [] {
      var n := |inputs| - 1;
      SingletonsSpent(faucet, inputs[..n]);
      var pair := SingletonPair(faucet, inputs[n].0, inputs[n].1);
      CoinsSplit(SingletonSegment(faucet, inputs[..n]), pair);
      assert Coins(pair)[0] == inputs[n].0;
      assert Owners(inputs) == Owners(inputs[..n]) + [inputs[n].0];
    }
  }

  /** The release's plans: the faucet is the ceremony's and the hashes fit. */
  predicate Sound(p: Plan, iss: Issuance, faucet: Bytes32, f: Funding) {
    p.faucet == faucet && HashesFit(p, iss, faucet, f)
  }

  /** A sound bundle is closed. */
  lemma SoundBundleIsClosed(p: Plan, iss: Issuance, faucet: Bytes32, f: Funding, n: nat)
    requires Accepts(p, iss, faucet, f, n) && Planned(p, f, n)
    requires Preexisting(Bundle(p, iss, faucet, f), f.All())
    requires Sound(p, iss, faucet, f)
    ensures Closed(Bundle(p, iss, faucet, f), f.All()) || SomeSameName(Bundle(p, iss, faucet, f))
  {
    hide Name, Planned, Bundle, AllMade, Unrelated, Preexisting, IssueRepeats, SomeSameName, AllOwned, BatchFunding,
      Names, AuthorityMatches, LineageMatches, LauncherMatches, SingletonsMatch;
    var ss := Bundle(p, iss, faucet, f);
    FundingIsSpent(p, iss, faucet, f, n);
    PreexistingUnrelated(ss, f.All());
    BundleIsGood(p, iss, faucet, f, n);
    BundleOutputs(p, iss, faucet, f, n);
    NamesDiffer(ss);
    if !SomeSameName(ss) {
      MadeOnce(ss);
    }
  }

  /** Where the batch is spent and which coins its parents are. */
  lemma BatchPlaces(p: Plan, iss: Issuance, faucet: Bytes32, f: Funding, n: nat)
    requires Accepts(p, iss, faucet, f, n) && Planned(p, f, n)
    ensures BatchSpend(p, faucet, f) in Bundle(p, iss, faucet, f)
    ensures Within(p.parents, Coins(Bundle(p, iss, faucet, f)))
  {
    hide Name, LauncherMatches, LauncherAssertion, LauncherMessage, LauncherAssertions, ParentSpend, BatchFunding,
      AuthorityMatches, LineageMatches, Distinct, ParentSegment, BatchSpend, SingletonSegment, AuthoritySegment,
      IssueSegment, PoolSegment;
    var parents, batch := ParentSegment(p.policyHash, faucet, p.parents), BatchSegment(p, faucet, f);
    assert batch[0] == BatchSpend(p, faucet, f);
    ParentCoins(p.policyHash, faucet, p.parents);
    CoinsSplit(batch, parents);
    var authority := AuthoritySegment(p, f);
    CoinsSplit(authority, batch + parents);
    var singles := SingletonSegment(faucet, SingletonInputs(p, f));
    CoinsSplit(singles, authority + (batch + parents));
    CoinsSplit(PoolSegment(p, f), singles + (authority + (batch + parents)));
    CoinsSplit(IssueSegment(p, iss, faucet, f), PoolSegment(p, f) + (singles + (authority + (batch + parents))));
  }

  /** A coin made in a bundle is an output of the spend of its parent. */
  lemma MadeByItsParent(ss: seq<Spend>, s: Spend, c: Coin)
    requires s in ss && c in AllMade(ss) && c.parent == Name(s.coin) && Distinct(Coins(ss)) && !SomeSameName(ss)
    ensures c in Made(s)
  {
    hide Name, SomeSameName;
    AllMadeMembers(ss, c);
    NamesDiffer(ss);
    var i :| 0 <= i < |ss| && c in Made(ss[i]);
    var j :| 0 <= j < |ss| && ss[j] == s;
    assert Name(ss[i].coin) == Name(ss[j].coin);
  }

  /** The batch makes no coin of two for another faucet. */
  lemma NotMadeByBatch(p: Plan, faucet: Bytes32, f: Funding, n: nat)
    requires p.faucet != faucet
    ensures Coin(Name(f.bridge), p.faucet, 2) !in Made(BatchSpend(p, faucet, f))
  {
    hide Name, LauncherAssertion;
    var o := BatchSpend(p, faucet, f).outputs;
    assert forall k :: 0 <= k < |o| ==> o[k].puzzleHash == faucet || o[k] == Output(LAUNCHER, 1);
  }

  /** A bundle whose plan names another faucet spends a coin that nobody makes. */
  lemma ForeignFaucetIsOpen(p: Plan, iss: Issuance, faucet: Bytes32, f: Funding, n: nat)
    requires Accepts(p, iss, faucet, f, n) && Planned(p, f, n) && n >= 2
    requires Preexisting(Bundle(p, iss, faucet, f), f.All())
    requires p.faucet != faucet
    ensures !Closed(Bundle(p, iss, faucet, f), f.All()) || SomeSameName(Bundle(p, iss, faucet, f))
  {
    hide Name, AllMade, IssueRepeats, SomeSameName, BatchFunding, Names, AuthorityMatches, LineageMatches,
      LauncherMatches, SingletonsMatch, Bundle, Coins, LauncherAssertion;
    var ss := Bundle(p, iss, faucet, f);
    if Closed(ss, f.All()) && !SomeSameName(ss) {
      BatchPlaces(p, iss, faucet, f, n);
      var second, batch := p.parents[1], BatchSpend(p, faucet, f);
      assert second == Coin(Name(f.bridge), p.faucet, 2) && second in p.parents;
      assert f.bridge in f.All();
      assert second !in f.All();
      NotMadeByBatch(p, faucet, f, n);
      MadeByItsParent(ss, batch, second);
    }
  }

  /**
   The builder compares neither the plan's faucet hash with the ceremony's nor the hashes of outputs that share a
   parent: the bundle it builds is closed exactly when those fit, or two of its coins share an id.
   */
  lemma ClosedIffSound(p: Plan, iss: Issuance, faucet: Bytes32, f: Funding, n: nat)
    requires Accepts(p, iss, faucet, f, n) && Planned(p, f, n) && n >= 2
    requires Preexisting(Bundle(p, iss, faucet, f), f.All())
    ensures
      || (Closed(Bundle(p, iss, faucet, f), f.All()) <==> Sound(p, iss, faucet, f))
      || SomeSameName(Bundle(p, iss, faucet, f))
  {
    hide Name, Planned, Bundle, IssueRepeats, SomeSameName, Coins, AllMade, Preexisting, BatchFunding, Names,
      AuthorityMatches, LineageMatches, LauncherMatches, SingletonsMatch, HashesFit;
    var ss := Bundle(p, iss, faucet, f);
    if p.faucet != faucet {
      ForeignFaucetIsOpen(p, iss, faucet, f, n);
    } else {
      BundleOutputs(p, iss, faucet, f, n);
      if Sound(p, iss, faucet, f) {
        SoundBundleIsClosed(p, iss, faucet, f, n);
      } else if Closed(ss, f.All()) {
        MadeOnceDiffers(ss);
      }
    }
  }

  // ---------------------------------------------------------------- value

  lemma FeeOfTwo(s: Spend, t: Spend)
    ensures Fee([s, t]) == s.coin.amount - SumOutputs(s.outputs) + t.coin.amount - SumOutputs(t.outputs)
  {
    assert [s, t][1..] == [t];
    assert Fee([t]) == t.coin.amount - SumOutputs(t.outputs) + Fee([t][1..]);
  }

  lemma SumOfTwo(o: Output, q: Output)
    ensures SumOutputs([o]) == o.amount && SumOutputs([o, q]) == o.amount + q.amount
  {
    assert [o, q][1..] == [q];
    assert [o][1..] == [] && [q][1..] == [];
  }

  /** A spend that pays a target and returns the change costs nothing. */
  lemma ChangeIsExact(target: Output, faucet: Bytes32, change: nat)
    ensures SumOutputs(WithChange(target, faucet, change)) == target.amount + change
  {
    SumOfTwo(target, Output(faucet, change));
    assert WithChange(target, faucet, change) == if change > 0 then [target, Output(faucet, change)] else [target];
  }

  lemma IssueIsFree(p: Plan, iss: Issuance, faucet: Bytes32, f: Funding)
    requires p.totalSupply <= f.sgt.amount
    ensures Fee(IssueSegment(p, iss, faucet, f)) == 0
  {
    hide Name, WithChange;
    var ss := IssueSegment(p, iss, faucet, f);
    FeeOfTwo(ss[0], ss[1]);
    ChangeIsExact(Output(iss.evePuzzleHash, p.totalSupply), faucet, f.sgt.amount - p.totalSupply);
    SumOfTwo(ss[1].outputs[0], ss[1].outputs[0]);
  }

  lemma PoolIsFree(p: Plan, f: Funding)
    requires f.pool.amount == POOL_FUNDING
    ensures Fee(PoolSegment(p, f)) == 0
  {
    hide Name, LauncherAssertion, LauncherMessage;
    var ss := PoolSegment(p, f);
    FeeOfTwo(ss[0], ss[1]);
    SumOfTwo(ss[0].outputs[0], ss[0].outputs[1]);
    SumOfTwo(ss[1].outputs[0], ss[1].outputs[0]);
  }

  lemma {:induction false} SingletonsAreFree(faucet: Bytes32, inputs: seq<(Coin, Surface)>)
    requires SingletonsMatch(inputs)
    ensures Fee(SingletonSegment(faucet, inputs)) == 0
  {
    hide Name, LauncherAssertion, LauncherMessage, LauncherMatches, WithChange;
    if inputs != [] {
      var n := |inputs| - 1;
      SingletonsAreFree(faucet, inputs[..n]);
      var ss := SingletonPair(faucet, inputs[n].0, inputs[n].1);
      FeeSplits(SingletonSegment(faucet, inputs[..n]), ss);
      FeeOfTwo(ss[0], ss[1]);
      ChangeIsExact(Output(LAUNCHER, 1), faucet, inputs[n].0.amount - 1);
      SumOfTwo(ss[1].outputs[0], ss[1].outputs[0]);
    }
  }

  /** A launcher spend passes its mojos on. */
  lemma LauncherIsFree(parent: Coin, s: Surface, amount: nat)
    ensures Fee([LauncherSpend(parent, s, amount)]) == 0
  {
    hide Name, LauncherMessage;
    var l := LauncherSpend(parent, s, amount);
    SumOfTwo(l.outputs[0], l.outputs[0]);
    assert [l][1..] == [];
  }

  lemma AuthorityIsFree(p: Plan, f: Funding)
    requires |p.identities| == 3 && f.authority.amount == AUTHORITY_FUNDING
    ensures Fee(AuthoritySegment(p, f)) == 0
  {
    hide Name, LauncherSpend, LauncherAssertions;
    var su, a := AuthoritySurfaces(p), f.authority;
    var l0, l1, l2, l3 := LauncherSpend(a, su[0].1, su[0].0), LauncherSpend(a, su[1].1, su[1].0),
      LauncherSpend(a, su[2].1, su[2].0), LauncherSpend(a, su[3].1, su[3].0);
    var last := AuthorityFunding(p, f);
    assert AuthoritySegment(p, f) == [l0] + ([l1] + ([l2] + ([l3] + [last])));
    LauncherIsFree(a, su[0].1, su[0].0);
    LauncherIsFree(a, su[1].1, su[1].0);
    LauncherIsFree(a, su[2].1, su[2].0);
    LauncherIsFree(a, su[3].1, su[3].0);
    FeeSplits([l3], [last]);
    FeeSplits([l2], [l3] + [last]);
    FeeSplits([l1], [l2] + ([l3] + [last]));
    FeeSplits([l0], [l1] + ([l2] + ([l3] + [last])));
    var o := last.outputs;
    SumOfTwo(o[0], o[1]);
    SumOfTwo(o[2], o[3]);
    SumOutputsSplits(o[..2], o[2..]);
    assert o == o[..2] + o[2..] && o[..2] == [o[0], o[1]] && o[2..] == [o[2], o[3]];
    assert [last][1..] == [];
  }

  lemma {:induction false} SumOutputsSplits(a: seq<Output>, b: seq<Output>)
    ensures SumOutputs(a + b) == SumOutputs(a) + SumOutputs(b)
  {
    if a == [] {
      assert a + b == b;
    } else {
      assert (a + b)[1..] == a[1..] + b;
      SumOutputsSplits(a[1..], b);
    }
  }

  lemma {:induction false} ParentOutputsSum(faucet: Bytes32, parents: seq<Coin>)
    requires forall i :: 0 <= i < |parents| ==> parents[i].amount == i + 1
    ensures SumOutputs(ParentOutputs(faucet, parents)) == BridgeTotal(|parents|)
  {
    if parents != [] {
      var n := |parents| - 1;
      ParentOutputsSum(faucet, parents[..n]);
      var o := Output(faucet, n + 1);
      SumOutputsSplits(ParentOutputs(faucet, parents[..n]), [o]);
      SumOfTwo(o, o);
      assert ParentOutputs(faucet, parents) == ParentOutputs(faucet, parents[..n]) + [o];
    }
  }

  /** The batch coin pays the parents and the launcher and leaves the buffer. */
  lemma BatchCostsBuffer(p: Plan, faucet: Bytes32, f: Funding, n: nat)
    requires Planned(p, f, n) && f.bridge.amount == BatchFunding(n)
    ensures Fee(BatchSegment(p, faucet, f)) == BATCH_BUFFER
  {
    hide Name, LauncherAssertion, LauncherMessage;
    var ss := BatchSegment(p, faucet, f);
    FeeOfTwo(ss[0], ss[1]);
    ParentOutputsSum(faucet, p.parents);
    SumOutputsSplits(ParentOutputs(faucet, p.parents), [Output(LAUNCHER, 1)]);
    SumOfTwo(Output(LAUNCHER, 1), ss[1].outputs[0]);
    SumOfTwo(ss[1].outputs[0], ss[1].outputs[0]);
  }

  lemma {:induction false} ParentsAreFree(policy: Bytes32, faucet: Bytes32, parents: seq<Coin>)
    requires forall i :: 0 <= i < |parents| ==> parents[i].amount >= 1
    ensures Fee(ParentSegment(policy, faucet, parents)) == 0
  {
    hide Name, WithChange;
    if parents != [] {
      assert ParentSegment(policy, faucet, parents)[1..] == ParentSegment(policy, faucet, parents[1..]);
      ParentsAreFree(policy, faucet, parents[1..]);
      ChangeIsExact(Output(policy, 1), faucet, parents[0].amount - 1);
    }
  }

  /** Every bundle, sound or not, costs exactly the buffer. */
  lemma BundleCostsBuffer(p: Plan, iss: Issuance, faucet: Bytes32, f: Funding, n: nat)
    requires Accepts(p, iss, faucet, f, n) && Planned(p, f, n)
    ensures Fee(Bundle(p, iss, faucet, f)) == BATCH_BUFFER
  {
    hide Name, IssueSegment, PoolSegment, AuthoritySegment, BatchSegment, ParentSegment, SingletonSegment,
      SingletonsMatch, LauncherMatches, AuthorityMatches, LineageMatches, Names, BatchFunding, Distinct,
      SingletonInputs;
    var singles := SingletonSegment(faucet, SingletonInputs(p, f));
    var parents := ParentSegment(p.policyHash, faucet, p.parents);
    var authority, batch := AuthoritySegment(p, f), BatchSegment(p, faucet, f);
    FeeSplits(batch, parents);
    FeeSplits(authority, batch + parents);
    FeeSplits(singles, authority + (batch + parents));
    FeeSplits(PoolSegment(p, f), singles + (authority + (batch + parents)));
    FeeSplits(IssueSegment(p, iss, faucet, f), PoolSegment(p, f) + (singles + (authority + (batch + parents))));
    IssueIsFree(p, iss, faucet, f);
    PoolIsFree(p, f);
    SingletonsAreFree(faucet, SingletonInputs(p, f));
    AuthorityIsFree(p, f);
    BatchCostsBuffer(p, faucet, f, n);
    ParentsAreFree(p.policyHash, faucet, p.parents);
  }

  /** The nine funding coins are worth what the bundle leaves behind, plus the buffer. */
  lemma GenesisConserves(p: Plan, iss: Issuance, faucet: Bytes32, f: Funding, n: nat)
    requires Accepts(p, iss, faucet, f, n) && Planned(p, f, n)
    requires Preexisting(Bundle(p, iss, faucet, f), f.All()) && Sound(p, iss, faucet, f)
    ensures
      || Sum(f.All()) == Sum(Survivors(Bundle(p, iss, faucet, f))) + BATCH_BUFFER
      || SomeSameName(Bundle(p, iss, faucet, f))
  {
    hide Name, Planned, Bundle, SomeSameName, Preexisting, BatchFunding, AuthorityMatches, LineageMatches,
      LauncherMatches, SingletonsMatch, Sound, Closed, Sum, Survivors, NamesDistinct;
    var ss := Bundle(p, iss, faucet, f);
    SoundBundleIsClosed(p, iss, faucet, f, n);
    BundleCostsBuffer(p, iss, faucet, f, n);
    NamesApart(p, iss, faucet, f, n);
    CoinsDistinct(f.All());
    if Closed(ss, f.All()) {
      ClosedConserves(ss, f.All());
    }
  }

  lemma CoinsDistinct(cs: seq<Coin>)
    requires NamesDistinct(cs)
    ensures Distinct(cs)
  {
    hide Name;
  }

  /** The release's batch: 32 bridge coins from one coin of 530. */
  lemma BatchFundingClosedForm(n: nat)
    ensures 2 * BatchFunding(n) == n * (n + 1) + 4
    ensures BatchFunding(32) == 530
  {
    BridgeTotalClosedForm(n);
    BridgeTotalClosedForm(32);
  }

  lemma {:induction false} BridgeTotalClosedForm(n: nat)
    ensures 2 * BridgeTotal(n) == n * (n + 1)
  {
    if n > 0 {
      BridgeTotalClosedForm(n - 1);
    }
  }

  // ---------------------------------------------------------------- bridge coins and announcements

  lemma MadeBySpend(ss: seq<Spend>, s: Spend, o: Output)
    requires s in ss && o in s.outputs
    ensures Coin(Name(s.coin), o.puzzleHash, o.amount) in AllMade(ss)
  {
    hide Name;
    MadeHas(s, o);
    AllMadeMembers(ss, Coin(Name(s.coin), o.puzzleHash, o.amount));
  }

  lemma ParentsInBundle(p: Plan, iss: Issuance, faucet: Bytes32, f: Funding, n: nat)
    requires Accepts(p, iss, faucet, f, n)
    ensures forall i :: 0 <= i < n ==> ParentSpend(p.policyHash, faucet, p.parents[i]) in Bundle(p, iss, faucet, f)
  {
    hide Name, LauncherMatches, BatchSegment, ParentSpend, BatchFunding, AuthorityMatches, LineageMatches, Distinct,
      SingletonSegment, AuthoritySegment, IssueSegment, PoolSegment;
    var parents := ParentSegment(p.policyHash, faucet, p.parents);
    assert forall i :: 0 <= i < n ==> parents[i] == ParentSpend(p.policyHash, faucet, p.parents[i]);
    assert forall s :: s in parents ==> s in Bundle(p, iss, faucet, f);
  }

  lemma ParentSpendMakes(policy: Bytes32, faucet: Bytes32, parent: Coin)
    ensures Output(policy, 1) in ParentSpend(policy, faucet, parent).outputs
    ensures ParentSpend(policy, faucet, parent).coin == parent
  {
    assert ParentSpend(policy, faucet, parent).outputs[0] == Output(policy, 1);
  }

  /** Every planned bridge coin is made and, in a sound bundle, left behind. */
  lemma BridgesAreLeft(p: Plan, iss: Issuance, faucet: Bytes32, f: Funding, n: nat, i: nat)
    requires Accepts(p, iss, faucet, f, n) && Planned(p, f, n) && i < n
    requires Preexisting(Bundle(p, iss, faucet, f), f.All())
    ensures p.bridges[i] in AllMade(Bundle(p, iss, faucet, f))
    ensures Sound(p, iss, faucet, f) ==>
              p.bridges[i] in Survivors(Bundle(p, iss, faucet, f)) || SomeSameName(Bundle(p, iss, faucet, f))
  {
    hide Name, Bundle, SomeSameName, BatchFunding, AuthorityMatches, LineageMatches, Names, LauncherMatches,
      SingletonsMatch, HashesFit, Survivors, AllMade, Distinct, Coins, GoodSegment, Preexisting, Unrelated, ParentSpend,
      BatchSpend;
    var ss, parent, c := Bundle(p, iss, faucet, f), p.parents[i], p.bridges[i];
    assert parent in p.parents && c == Coin(Name(parent), p.policyHash, 1) && parent.parent == Name(f.bridge);
    ParentsInBundle(p, iss, faucet, f, n);
    ParentSpendMakes(p.policyHash, faucet, parent);
    MadeBySpend(ss, ParentSpend(p.policyHash, faucet, parent), Output(p.policyHash, 1));
    if Sound(p, iss, faucet, f) && !SomeSameName(ss) {
      FundingIsSpent(p, iss, faucet, f, n);
      PreexistingUnrelated(ss, f.All());
      SoundFaucet(p, iss, faucet, f);
      BundleIsGood(p, iss, faucet, f, n);
      BatchPlaces(p, iss, faucet, f, n);
      assert f.bridge in f.All();
      GrandchildIsNotSpent(ss, f.All(), parent, c);
      SurvivorsAre(ss, c);
    }
  }

  lemma SoundFaucet(p: Plan, iss: Issuance, faucet: Bytes32, f: Funding)
    requires Sound(p, iss, faucet, f)
    ensures p.faucet == faucet != LAUNCHER
  {
  }

  lemma SurvivorsAre(ss: seq<Spend>, c: Coin)
    ensures c in Survivors(ss) <==> c in AllMade(ss) && c !in Coins(ss)
  {
    SelectMembers(AllMade(ss), Coins(ss), false);
  }

  lemma SpentNamesDiffer(ss: seq<Spend>, c: Coin, d: Coin)
    requires c in Coins(ss) && d in Coins(ss) && Distinct(Coins(ss)) && !SomeSameName(ss)
    ensures Name(c) == Name(d) ==> c == d
  {
    hide Name, SomeSameName;
    NamesDiffer(ss);
    var i :| 0 <= i < |ss| && Coins(ss)[i] == c;
    var j :| 0 <= j < |ss| && Coins(ss)[j] == d;
    assert ss[i].coin == c && ss[j].coin == d;
  }

  /** A child of a coin that is itself a child of a funding coin is not spent. */
  lemma GrandchildIsNotSpent(ss: seq<Spend>, funding: seq<Coin>, parent: Coin, c: Coin)
    requires GoodSegment(ss, funding, funding) && Preexisting(ss, funding) && Unrelated(funding) && !SomeSameName(ss)
    requires parent in Coins(ss) && (exists o :: o in funding && parent.parent == Name(o)) && c.parent == Name(parent)
    ensures c !in Coins(ss)
  {
    hide Name, SomeSameName, SelfMade;
    forall o | o in funding
      ensures c.parent != Name(o)
    {
      SpentNamesDiffer(ss, o, parent);
    }
    assert !Owned(c, funding);
  }

  /** Some spend of the list announces `a`. */
  predicate Announced(ss: seq<Spend>, a: Bytes32) {
    exists s :: s in ss && Announces(s, a)
  }

  predicate Announces(s: Spend, a: Bytes32) {
    exists m :: m in s.announces && a == AnnouncementId(s.coin, m)
  }

  predicate AssertionsMet(ss: seq<Spend>) {
    forall s, a :: s in ss && a in s.asserts ==> Announced(ss, a)
  }

  lemma AssertionsUnion(a: seq<Spend>, b: seq<Spend>)
    requires AssertionsMet(a) && AssertionsMet(b)
    ensures AssertionsMet(a + b)
  {
    hide Announces;
    forall s, x | s in a + b && x in s.asserts
      ensures Announced(a + b, x)
    {
      if s in a {
        assert Announced(a, x);
      } else {
        assert Announced(b, x);
      }
    }
  }

  lemma LauncherAnnounces(parent: Coin, s: Surface, amount: nat)
    ensures Announces(LauncherSpend(parent, s, amount), LauncherAssertion(parent, s, amount))
  {
    hide Name, LauncherMessage;
    var l := LauncherSpend(parent, s, amount);
    assert l.announces[0] == LauncherMessage(s, amount);
  }

  lemma PairMeetsAssertions(s: Spend, parent: Coin, surface: Surface)
    requires s.asserts == [LauncherAssertion(parent, surface, 1)]
    ensures AssertionsMet([s, LauncherSpend(parent, surface, 1)])
  {
    hide Name, LauncherMessage, LauncherAssertion, Announces;
    LauncherAnnounces(parent, surface, 1);
    var l := LauncherSpend(parent, surface, 1);
    assert l in [s, l];
  }

  lemma NoAssertions(ss: seq<Spend>)
    requires forall s :: s in ss ==> s.asserts == []
    ensures AssertionsMet(ss)
  {
  }

  lemma {:induction false} SingletonsMeetAssertions(faucet: Bytes32, inputs: seq<(Coin, Surface)>)
    requires SingletonsMatch(inputs)
    ensures AssertionsMet(SingletonSegment(faucet, inputs))
  {
    hide Name, LauncherAssertion, LauncherSpend, LauncherMatches, AssertionsMet;
    if inputs == [] {
      NoAssertions([]);
    } else {
      var n := |inputs| - 1;
      SingletonsMeetAssertions(faucet, inputs[..n]);
      var ss := SingletonPair(faucet, inputs[n].0, inputs[n].1);
      PairMeetsAssertions(ss[0], inputs[n].0, inputs[n].1);
      AssertionsUnion(SingletonSegment(faucet, inputs[..n]), ss);
    }
  }

  lemma AuthorityMeetsAssertions(p: Plan, f: Funding)
    requires |p.identities| == 3
    ensures AssertionsMet(AuthoritySegment(p, f))
  {
    hide Name, LauncherAssertion, LauncherSpend, Announces;
    var ss, su := AuthoritySegment(p, f), AuthoritySurfaces(p);
    var asserts := LauncherAssertions(f.authority, su);
    forall i | 0 <= i < 4
      ensures Announced(ss, asserts[i])
    {
      LauncherAnnounces(f.authority, su[i].1, su[i].0);
      assert ss[i] == LauncherSpend(f.authority, su[i].1, su[i].0) && ss[i] in ss;
    }
    forall i | 0 <= i < 4
      ensures ss[i].asserts == []
    {
      LauncherAssertsNothing(f.authority, su[i].1, su[i].0);
    }
  }

  lemma LauncherAssertsNothing(parent: Coin, s: Surface, amount: nat)
    ensures LauncherSpend(parent, s, amount).asserts == []
  {
  }

  /** Every launcher announcement a signed funding spend asserts is made in the bundle. */
  lemma BundleMeetsAssertions(p: Plan, iss: Issuance, faucet: Bytes32, f: Funding, n: nat)
    requires Accepts(p, iss, faucet, f, n)
    ensures AssertionsMet(Bundle(p, iss, faucet, f))
  {
    hide Name, SingletonSegment, AuthoritySegment, LauncherAssertion, LauncherSpend, AssertionsMet, SingletonsMatch,
      LauncherMatches, AuthorityMatches, LineageMatches, Names, BatchFunding, Distinct;
    var inputs := SingletonInputs(p, f);
    var singles, parents := SingletonSegment(faucet, inputs), ParentSegment(p.policyHash, faucet, p.parents);
    var authority, batch := AuthoritySegment(p, f), BatchSegment(p, faucet, f);
    var pool, issue := PoolSegment(p, f), IssueSegment(p, iss, faucet, f);
    NoAssertions(parents);
    NoAssertions(issue);
    PairMeetsAssertions(batch[0], f.bridge, p.property);
    PairMeetsAssertions(pool[0], f.pool, p.pool);
    SingletonsMeetAssertions(faucet, inputs);
    AuthorityMeetsAssertions(p, f);
    AssertionsUnion(batch, parents);
    AssertionsUnion(authority, batch + parents);
    AssertionsUnion(singles, authority + (batch + parents));
    AssertionsUnion(pool, singles + (authority + (batch + parents)));
    AssertionsUnion(issue, pool + (singles + (authority + (batch + parents))));
  }

  /** A launcher of one planned surface makes that singleton, with the id the plan names. */
  lemma LaunchersMakeSurfaces(parent: Coin, s: Surface, amount: nat)
    requires LauncherMatches(parent, s, amount)
    ensures Made(LauncherSpend(parent, s, amount)) == [Coin(s.launcherId, s.fullPuzzleHash, amount)]
  {
    hide Name, LauncherMessage;
  }

  /** A launcher's announcement binds the singleton's puzzle and its amount, or there is a collision. */
  lemma LauncherMessageBinds(s: Surface, amount: nat, t: Surface, other: nat)
    requires LauncherMessage(s, amount) == LauncherMessage(t, other)
    ensures
      || (s.fullPuzzleHash == t.fullPuzzleHash && amount == other)
      || Collision(ListOf([Atom(s.fullPuzzleHash), IntTree(amount), NIL]),
                   ListOf([Atom(t.fullPuzzleHash), IntTree(other), NIL]))
  {
    hide TreeHash, ListOf, IntToAtom, Collision;
    var a, b := [Atom(s.fullPuzzleHash), IntTree(amount), NIL], [Atom(t.fullPuzzleHash), IntTree(other), NIL];
    FieldsBind(a, b);
    if a == b {
      assert a[0] == b[0] && a[1] == b[1];
      IntTreeInjective(amount, other);
    }
  }
}
