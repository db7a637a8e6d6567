/**
 What the genesis bundle leaves behind: exactly which coins, at which puzzles, worth how much.
 */
module GenesisLeft {
  import opened Hashing
  import opened Sequences
  import opened Clvm
  import opened Ledger
  import opened Genesis
  import opened GenesisProofs
  import AuthorityProtocol

  // ---------------------------------------------------------------- what the plan wants

  /** The singletons of the plan, with what each is worth. */
  function Surfaces(p: Plan): seq<(nat, Surface)>
    requires |p.identities| == 3
  {
    [(1, p.pool), (1, p.did), (1, p.governance), (1, p.statutes), (1, p.config), (1, p.vaultRegistry),
     (1, p.authority), (3, p.identities[0]), (5, p.identities[1]), (7, p.identities[2]), (1, p.property)]
  }

  /** The identities are launched with the amounts that the authority's driver and puzzle expect of the slots. */
  lemma IdentityAmountsAgree(p: Plan, slot: nat)
    requires |p.identities| == 3 && slot < 3
    ensures Surfaces(p)[7 + slot] == (AuthorityProtocol.AmountFor(slot), p.identities[slot])
  {
  }

  predicate IsSingleton(c: Coin, amount: nat, s: Surface) {
    c == Coin(s.launcherId, s.fullPuzzleHash, amount)
  }

  predicate IsSurface(p: Plan, c: Coin)
    requires |p.identities| == 3
  {
    exists i :: 0 <= i < |Surfaces(p)| && IsSingleton(c, Surfaces(p)[i].0, Surfaces(p)[i].1)
  }

  /** The whole supply, at the plan's puzzle, made from the one-time coin that the SGT funding makes. */
  predicate IsSupply(p: Plan, iss: Issuance, f: Funding, c: Coin) {
    && c.puzzleHash == p.sgtFullPuzzleHash && c.amount == p.totalSupply
    && c.parent == Name(Coin(Name(f.sgt), iss.evePuzzleHash, p.totalSupply))
  }

  /** The reserve seed, with the id that the plan names. */
  predicate IsSeed(p: Plan, f: Funding, c: Coin) {
    c == Coin(Name(f.pool), p.seedPuzzleHash, 1) && Name(c) == p.seedCoinId
  }

  /** What a coin of the faucet is worth beyond `paid` goes back to the faucet. */
  predicate IsRest(faucet: Bytes32, coin: Coin, paid: nat, c: Coin) {
    c.parent == Name(coin) && c.puzzleHash == faucet && c.amount == coin.amount - paid > 0
  }

  predicate IsChange(p: Plan, faucet: Bytes32, f: Funding, c: Coin) {
    || IsRest(faucet, f.sgt, p.totalSupply, c)
    || (exists o :: o in Singles(f) && IsRest(faucet, o, 1, c))
    || (exists o :: o in p.parents && IsRest(faucet, o, 1, c))
  }

  // ---------------------------------------------------------------- survivors of joined bundles

  /** The spends of the list revolve around their owners, which are spent in it, and ids tell its coins apart. */
  predicate Separate(ss: seq<Spend>, owners: seq<Coin>, funding: seq<Coin>) {
    && GoodSegment(ss, owners, funding)
    && Preexisting(ss, funding) && Unrelated(funding)
    && (forall c, d :: c in Coins(ss) && d in Coins(ss) && Name(c) == Name(d) ==> c == d)
  }

  lemma MadeBySpent(ss: seq<Spend>, c: Coin)
    requires c in AllMade(ss)
    ensures exists d :: d in Coins(ss) && c.parent == Name(d)
  {
    hide Name;
    AllMadeMembers(ss, c);
    var i :| 0 <= i < |ss| && c in Made(ss[i]);
    assert Coins(ss)[i] == ss[i].coin;
  }

  /** What one part of a bundle makes, the other does not spend. */
  lemma PartsDoNotFeed(a: seq<Spend>, b: seq<Spend>, c: Coin, owners: seq<Coin>, bo: seq<Coin>, funding: seq<Coin>)
    requires Separate(a + b, owners, funding) || Separate(b + a, owners, funding)
    requires GoodSegment(b, bo, funding) && c in AllMade(a)
    ensures c !in Coins(b)
  {
    hide Name, AllMade, SelfMade;
    CoinsSplit(a, b);
    CoinsSplit(b, a);
    DistinctSplits(Coins(a), Coins(b));
    DistinctSplits(Coins(b), Coins(a));
    MadeBySpent(a, c);
    var d :| d in Coins(a) && c.parent == Name(d);
  }

  /** The coins left by two parts of a bundle are those left by each. */
  lemma SurvivorsJoin(a: seq<Spend>, b: seq<Spend>, owners: seq<Coin>, ao: seq<Coin>, bo: seq<Coin>,
                      funding: seq<Coin>, c: Coin)
    requires Separate(a + b, owners, funding) && GoodSegment(a, ao, funding) && GoodSegment(b, bo, funding)
    ensures c in Survivors(a + b) <==> c in Survivors(a) || c in Survivors(b)
  {
    hide Name, AllMade, Survivors, Separate, GoodSegment;
    SurvivorsAre(a + b, c);
    SurvivorsAre(a, c);
    SurvivorsAre(b, c);
    CoinsSplit(a, b);
    AllMadeSplits(a, b);
    if c in AllMade(a) {
      PartsDoNotFeed(a, b, c, owners, bo, funding);
    }
    if c in AllMade(b) {
      PartsDoNotFeed(b, a, c, owners, ao, funding);
    }
  }

  /** Parts of a separate bundle are separate. */
  lemma PartIsSeparate(a: seq<Spend>, b: seq<Spend>, owners: seq<Coin>, bo: seq<Coin>, funding: seq<Coin>)
    requires Separate(a + b, owners, funding) || Separate(b + a, owners, funding)
    requires GoodSegment(b, bo, funding)
    ensures Separate(b, bo, funding)
  {
    hide Name, GoodSegment;
    CoinsSplit(a, b);
    CoinsSplit(b, a);
  }

  // ---------------------------------------------------------------- survivors of each part

  /** Where one spend makes the other's coin, what else they make is left. */
  lemma PairLeaves(s: Spend, t: Spend, funding: seq<Coin>, c: Coin)
    requires Separate([s, t], [s.coin], funding) && t.coin in Made(s)
    ensures c in Survivors([s, t]) <==> (c in Made(s) && c != t.coin) || c in Made(t)
  {
    hide Name, AllMade;
    AllMadeOfTwo(s, t);
    SurvivorsAre([s, t], c);
    assert Coins([s, t]) == [s.coin, t.coin];
    assert s.coin in Coins([s, t]) && t.coin in Coins([s, t]) && s.coin in funding;
    assert Coins([s, t])[0] != Coins([s, t])[1];
  }

  lemma IssueLeaves(p: Plan, iss: Issuance, faucet: Bytes32, f: Funding, funding: seq<Coin>, c: Coin)
    requires p.totalSupply <= f.sgt.amount && iss.reservePuzzleHash == p.sgtFullPuzzleHash
    requires !IssueRepeats(p, iss, faucet, f) && Separate(IssueSegment(p, iss, faucet, f), [f.sgt], funding)
    ensures c in Survivors(IssueSegment(p, iss, faucet, f)) <==>
              IsSupply(p, iss, f, c) || IsRest(faucet, f.sgt, p.totalSupply, c)
  {
    hide Name, Separate, Survivors;
    var ss := IssueSegment(p, iss, faucet, f);
    MadeHas(ss[0], Output(iss.evePuzzleHash, p.totalSupply));
    PairLeaves(ss[0], ss[1], funding, c);
    MadeByChange(ss[0], Output(iss.evePuzzleHash, p.totalSupply), faucet, c);
    assert Made(ss[1]) == [Coin(Name(ss[1].coin), iss.reservePuzzleHash, p.totalSupply)];
  }

  /** A spend with a target and change makes the target and, if something is left, the change. */
  lemma MadeByChange(s: Spend, target: Output, faucet: Bytes32, c: Coin)
    requires target.amount <= s.coin.amount
    requires s.outputs == WithChange(target, faucet, s.coin.amount - target.amount)
    ensures c in Made(s) <==>
              c == Coin(Name(s.coin), target.puzzleHash, target.amount) || IsRest(faucet, s.coin, target.amount, c)
  {
    hide Name;
    var change := s.coin.amount - target.amount;
    assert Made(s) == [Coin(Name(s.coin), target.puzzleHash, target.amount)]
                      + if change > 0 then [Coin(Name(s.coin), faucet, change)] else [];
  }

  lemma PoolLeaves(p: Plan, f: Funding, funding: seq<Coin>, c: Coin)
    requires LauncherMatches(f.pool, p.pool, 1) && Name(Coin(Name(f.pool), p.seedPuzzleHash, 1)) == p.seedCoinId
    requires p.seedPuzzleHash != LAUNCHER && Separate(PoolSegment(p, f), [f.pool], funding)
    ensures c in Survivors(PoolSegment(p, f)) <==> IsSingleton(c, 1, p.pool) || IsSeed(p, f, c)
  {
    hide Name, Separate, Survivors, LauncherAssertion, LauncherMessage;
    var ss := PoolSegment(p, f);
    MadeHas(ss[0], Output(LAUNCHER, 1));
    PairLeaves(ss[0], ss[1], funding, c);
    LaunchersMakeSurfaces(f.pool, p.pool, 1);
    assert Made(ss[0]) == [LauncherCoin(f.pool, 1), Coin(Name(f.pool), p.seedPuzzleHash, 1)];
  }

  predicate LeftByPair(faucet: Bytes32, coin: Coin, s: Surface, c: Coin) {
    IsSingleton(c, 1, s) || IsRest(faucet, coin, 1, c)
  }

  lemma SingletonPairLeaves(faucet: Bytes32, coin: Coin, s: Surface, funding: seq<Coin>, c: Coin)
    requires coin.amount >= 1 && LauncherMatches(coin, s, 1) && faucet != LAUNCHER
    requires Separate(SingletonPair(faucet, coin, s), [coin], funding)
    ensures c in Survivors(SingletonPair(faucet, coin, s)) <==> LeftByPair(faucet, coin, s, c)
  {
    hide Name, Separate, Survivors, LauncherAssertion, LauncherMessage;
    var ss := SingletonPair(faucet, coin, s);
    MadeHas(ss[0], Output(LAUNCHER, 1));
    PairLeaves(ss[0], ss[1], funding, c);
    MadeByChange(ss[0], Output(LAUNCHER, 1), faucet, c);
    LaunchersMakeSurfaces(coin, s, 1);
  }

  lemma {:induction false} SingletonsLeave(faucet: Bytes32, inputs: seq<(Coin, Surface)>, funding: seq<Coin>, c: Coin)
    requires SingletonsMatch(inputs) && faucet != LAUNCHER && NamesDistinct(Owners(inputs))
    requires Within(Owners(inputs), funding) && Separate(SingletonSegment(faucet, inputs), Owners(inputs), funding)
    ensures c in Survivors(SingletonSegment(faucet, inputs)) <==>
              exists i :: 0 <= i < |inputs| && LeftByPair(faucet, inputs[i].0, inputs[i].1, c)
  {
    hide Name, GoodSegment, LauncherMatches, SingletonPair, NamesDistinct, Survivors, LeftByPair, Preexisting;
    if inputs == [] {
      SurvivorsAre([], c);
    } else {
      var n := |inputs| - 1;
      var front, pair := SingletonSegment(faucet, inputs[..n]), SingletonPair(faucet, inputs[n].0, inputs[n].1);
      assert Owners(inputs) == Owners(inputs[..n]) + [inputs[n].0];
      NamesDistinctSplit(Owners(inputs[..n]), [inputs[n].0]);
      assert inputs[n].0 in Owners(inputs);
      SingletonsAreGood(faucet, inputs[..n], funding);
      SingletonPairIsGood(faucet, inputs[n].0, inputs[n].1, funding);
      PartIsSeparate(pair, front, Owners(inputs), Owners(inputs[..n]), funding);
      PartIsSeparate(front, pair, Owners(inputs), [inputs[n].0], funding);
      SurvivorsJoin(front, pair, Owners(inputs), Owners(inputs[..n]), [inputs[n].0], funding, c);
      SingletonsLeave(faucet, inputs[..n], funding, c);
      SingletonPairLeaves(faucet, inputs[n].0, inputs[n].1, funding, c);
      assert forall i :: 0 <= i < n ==> inputs[..n][i] == inputs[i];
    }
  }

  /** A coin made by a spent child of a funding coin is not spent. */
  lemma GrandchildIsLeft(ss: seq<Spend>, owners: seq<Coin>, funding: seq<Coin>, child: Coin, c: Coin)
    requires Separate(ss, owners, funding) && child in Coins(ss) && child !in owners
    requires c in AllMade(ss) && c.parent == Name(child)
    ensures c in Survivors(ss)
  {
    hide Name, SelfMade, AllMade;
    SurvivorsAre(ss, c);
  }

  lemma AuthorityLeaves(p: Plan, f: Funding, funding: seq<Coin>, c: Coin)
    requires |p.identities| == 3 && AuthorityMatches(p, f)
    requires Separate(AuthoritySegment(p, f), [f.authority], funding)
    ensures c in Survivors(AuthoritySegment(p, f)) <==>
              exists i :: 0 <= i < 4 && IsSingleton(c, AuthoritySurfaces(p)[i].0, AuthoritySurfaces(p)[i].1)
  {
    hide Name, Separate, LauncherAssertion, LauncherAssertions, LauncherMessage, AllMade;
    var ss, su := AuthoritySegment(p, f), AuthoritySurfaces(p);
    SurvivorsAre(ss, c);
    AllMadeMembers(ss, c);
    forall i | 0 <= i < 4
      ensures Made(ss[i]) == [Coin(su[i].1.launcherId, su[i].1.fullPuzzleHash, su[i].0)]
      ensures ss[i].coin == LauncherCoin(f.authority, su[i].0) && ss[i].coin in Coins(ss)
    {
      LaunchersMakeSurfaces(f.authority, su[i].1, su[i].0);
      assert Coins(ss)[i] == ss[i].coin;
    }
    assert Made(ss[4]) == [LauncherCoin(f.authority, 1), LauncherCoin(f.authority, 3), LauncherCoin(f.authority, 5),
                           LauncherCoin(f.authority, 7)];
    assert Made(ss[4]) == [ss[0].coin, ss[1].coin, ss[2].coin, ss[3].coin];
    forall i | 0 <= i < 4 && c in Made(ss[i])
      ensures c in Survivors(ss)
    {
      ChildOfFunding(ss, f.authority, funding, ss[i].coin);
      GrandchildIsLeft(ss, [f.authority], funding, ss[i].coin, c);
    }
  }

  lemma ChildOfFunding(ss: seq<Spend>, owner: Coin, funding: seq<Coin>, child: Coin)
    requires Separate(ss, [owner], funding) && child.parent == Name(owner)
    ensures child != owner
  {
    hide Name;
    assert owner in funding && owner in Coins(ss);
  }

  lemma ParentMakes(p: Plan, faucet: Bytes32, f: Funding, n: nat, i: nat, c: Coin)
    requires Planned(p, f, n) && i < n
    ensures c in Made(ParentSpend(p.policyHash, faucet, p.parents[i])) <==>
              c == p.bridges[i] || IsRest(faucet, p.parents[i], 1, c)
  {
    hide Name;
    MadeByChange(ParentSpend(p.policyHash, faucet, p.parents[i]), Output(p.policyHash, 1), faucet, c);
  }

  predicate LeftByParents(p: Plan, faucet: Bytes32, c: Coin) {
    c in p.bridges || exists o :: o in p.parents && IsRest(faucet, o, 1, c)
  }

  lemma {:induction false} AllMadeByParents(policy: Bytes32, faucet: Bytes32, parents: seq<Coin>, c: Coin)
    ensures c in AllMade(ParentSegment(policy, faucet, parents)) <==>
              exists i :: 0 <= i < |parents| && c in Made(ParentSpend(policy, faucet, parents[i]))
  {
    hide Name, ParentSpend, Made;
    var ss := ParentSegment(policy, faucet, parents);
    AllMadeMembers(ss, c);
    assert forall i :: 0 <= i < |parents| ==> ss[i] == ParentSpend(policy, faucet, parents[i]);
  }

  lemma ParentsMake(p: Plan, faucet: Bytes32, f: Funding, n: nat, c: Coin)
    requires Planned(p, f, n)
    ensures c in AllMade(ParentSegment(p.policyHash, faucet, p.parents)) <==> LeftByParents(p, faucet, c)
  {
    hide Name, ParentSpend, Made, AllMade, ParentSegment, IsRest;
    AllMadeByParents(p.policyHash, faucet, p.parents, c);
    forall i | 0 <= i < n
      ensures c in Made(ParentSpend(p.policyHash, faucet, p.parents[i])) <==>
                c == p.bridges[i] || IsRest(faucet, p.parents[i], 1, c)
    {
      ParentMakes(p, faucet, f, n, i, c);
    }
    assert |p.parents| == n;
  }

  lemma BatchSpendMakes(p: Plan, faucet: Bytes32, f: Funding, n: nat, c: Coin)
    requires Planned(p, f, n) && p.faucet == faucet
    ensures c in Made(BatchSpend(p, faucet, f)) <==> c in p.parents || c == LauncherCoin(f.bridge, 1)
  {
    hide Name, LauncherAssertion, LauncherMessage;
    var s := BatchSpend(p, faucet, f);
    assert Made(s) == p.parents + [LauncherCoin(f.bridge, 1)];
  }

  lemma BatchLeaves(p: Plan, faucet: Bytes32, f: Funding, n: nat, funding: seq<Coin>, c: Coin)
    requires Planned(p, f, n) && p.faucet == faucet && LauncherMatches(f.bridge, p.property, 1)
    requires Separate(FromBatch(p, faucet, f), [f.bridge], funding)
    ensures c in Survivors(FromBatch(p, faucet, f)) <==>
              IsSingleton(c, 1, p.property) || LeftByParents(p, faucet, c)
  {
    hide Name, Separate, LauncherAssertion, LauncherMessage, AllMade, ParentSegment, LauncherSpend, IsRest,
      LauncherMatches, BatchSpend, Survivors;
    var ss, batch := FromBatch(p, faucet, f), BatchSegment(p, faucet, f);
    var parents := ParentSegment(p.policyHash, faucet, p.parents);
    SurvivorsAre(ss, c);
    CoinsSplit(batch, parents);
    AllMadeSplits(batch, parents);
    AllMadeOfTwo(batch[0], batch[1]);
    BatchCoins(p, faucet, f);
    ParentCoins(p.policyHash, faucet, p.parents);
    BatchSpendMakes(p, faucet, f, n, c);
    ParentsMake(p, faucet, f, n, c);
    LaunchersMakeSurfaces(f.bridge, p.property, 1);
    if IsSingleton(c, 1, p.property) {
      LauncherCoinIsChild(f.bridge);
      ChildOfFunding(ss, f.bridge, funding, LauncherCoin(f.bridge, 1));
      LauncherIdIsName(f.bridge, p.property);
      GrandchildIsLeft(ss, [f.bridge], funding, LauncherCoin(f.bridge, 1), c);
    } else if LeftByParents(p, faucet, c) {
      var o := ParentOf(p, faucet, f, n, c);
      ChildOfFunding(ss, f.bridge, funding, o);
      GrandchildIsLeft(ss, [f.bridge], funding, o, c);
    }
  }

  lemma BatchCoins(p: Plan, faucet: Bytes32, f: Funding)
    ensures Coins(BatchSegment(p, faucet, f)) == [f.bridge, LauncherCoin(f.bridge, 1)]
  {
    hide Name, LauncherAssertion, LauncherMessage;
  }

  lemma LauncherCoinIsChild(parent: Coin)
    ensures LauncherCoin(parent, 1).parent == Name(parent)
  {
  }

  lemma LauncherIdIsName(parent: Coin, s: Surface)
    requires LauncherMatches(parent, s, 1)
    ensures s.launcherId == Name(LauncherCoin(parent, 1))
  {
  }

  lemma ParentOf(p: Plan, faucet: Bytes32, f: Funding, n: nat, c: Coin) returns (o: Coin)
    requires Planned(p, f, n) && LeftByParents(p, faucet, c)
    ensures o in p.parents && c.parent == Name(o) && o.parent == Name(f.bridge)
  {
    hide Name;
    if c in p.bridges {
      var i :| 0 <= i < n && p.bridges[i] == c;
      o := p.parents[i];
    } else {
      o :| o in p.parents && IsRest(faucet, o, 1, c);
    }
  }

  // ---------------------------------------------------------------- the whole bundle

  /** What a sound bundle should leave: the supply, the seed, eleven singletons, the bridge coins, and change. */
  predicate IsLeft(p: Plan, iss: Issuance, faucet: Bytes32, f: Funding, c: Coin)
    requires |p.identities| == 3
  {
    IsSupply(p, iss, f, c) || IsSeed(p, f, c) || IsSurface(p, c) || c in p.bridges || IsChange(p, faucet, f, c)
  }

  predicate LeftBySingles(p: Plan, faucet: Bytes32, f: Funding, c: Coin) {
    exists i :: 0 <= i < |SingletonInputs(p, f)|
      && LeftByPair(faucet, SingletonInputs(p, f)[i].0, SingletonInputs(p, f)[i].1, c)
  }

  predicate LeftByAuthority(p: Plan, c: Coin)
    requires |p.identities| == 3
  {
    exists i :: 0 <= i < 4 && IsSingleton(c, AuthoritySurfaces(p)[i].0, AuthoritySurfaces(p)[i].1)
  }

  /** The parts leave together what should be left. */
  lemma PartsLeave(p: Plan, iss: Issuance, faucet: Bytes32, f: Funding, c: Coin)
    requires |p.identities| == 3 && Name(Coin(Name(f.pool), p.seedPuzzleHash, 1)) == p.seedCoinId
    ensures IsLeft(p, iss, faucet, f, c) <==>
              || IsSupply(p, iss, f, c) || IsRest(faucet, f.sgt, p.totalSupply, c)
              || IsSingleton(c, 1, p.pool) || IsSeed(p, f, c)
              || LeftBySingles(p, faucet, f, c) || LeftByAuthority(p, c)
              || IsSingleton(c, 1, p.property) || LeftByParents(p, faucet, c)
  {
    hide Name, IsSupply, IsSeed, IsRest, IsSingleton;
    SinglesLeaveFive(p, faucet, f, c);
    SurfacesAre(p, c);
  }

  lemma SinglesLeaveFive(p: Plan, faucet: Bytes32, f: Funding, c: Coin)
    ensures LeftBySingles(p, faucet, f, c) <==>
              || IsSingleton(c, 1, p.did) || IsSingleton(c, 1, p.governance) || IsSingleton(c, 1, p.statutes)
              || IsSingleton(c, 1, p.config) || IsSingleton(c, 1, p.vaultRegistry)
              || exists o :: o in Singles(f) && IsRest(faucet, o, 1, c)
  {
    hide Name, IsRest, IsSingleton;
    var inputs := SingletonInputs(p, f);
    assert forall i :: 0 <= i < 5 ==> Singles(f)[i] == inputs[i].0;
    forall i | 0 <= i < 5 && LeftByPair(faucet, inputs[i].0, inputs[i].1, c)
      ensures LeftBySingles(p, faucet, f, c)
    {
    }
    assert inputs[0].1 == p.did && inputs[1].1 == p.governance && inputs[2].1 == p.statutes;
    assert inputs[3].1 == p.config && inputs[4].1 == p.vaultRegistry;
  }

  lemma SurfacesAre(p: Plan, c: Coin)
    requires |p.identities| == 3
    ensures IsSurface(p, c) <==>
              || IsSingleton(c, 1, p.pool) || IsSingleton(c, 1, p.did) || IsSingleton(c, 1, p.governance)
              || IsSingleton(c, 1, p.statutes) || IsSingleton(c, 1, p.config) || IsSingleton(c, 1, p.vaultRegistry)
              || LeftByAuthority(p, c) || IsSingleton(c, 1, p.property)
  {
    hide IsSingleton;
    var su, au := Surfaces(p), AuthoritySurfaces(p);
    assert su[6] == au[0] && su[7] == au[1] && su[8] == au[2] && su[9] == au[3];
    forall i | 0 <= i < 11 && IsSingleton(c, su[i].0, su[i].1)
      ensures IsSurface(p, c)
    {
    }
    assert su[0].1 == p.pool && su[1].1 == p.did && su[2].1 == p.governance && su[3].1 == p.statutes;
    assert su[4].1 == p.config && su[5].1 == p.vaultRegistry && su[10].1 == p.property;
  }

  lemma BundleIsSeparate(p: Plan, iss: Issuance, faucet: Bytes32, f: Funding, n: nat)
    requires Accepts(p, iss, faucet, f, n) && Planned(p, f, n) && Sound(p, iss, faucet, f)
    requires Preexisting(Bundle(p, iss, faucet, f), f.All()) && !SomeSameName(Bundle(p, iss, faucet, f))
    ensures Separate(Bundle(p, iss, faucet, f), f.All(), f.All())
  {
    hide Name, Planned, Bundle, SomeSameName, BatchFunding, AuthorityMatches, LineageMatches, LauncherMatches,
      SingletonsMatch, HashesFit, GoodSegment, Preexisting, Coins;
    var ss := Bundle(p, iss, faucet, f);
    FundingIsSpent(p, iss, faucet, f, n);
    PreexistingUnrelated(ss, f.All());
    SoundFaucet(p, iss, faucet, f);
    BundleIsGood(p, iss, faucet, f, n);
    forall c, d | c in Coins(ss) && d in Coins(ss) && Name(c) == Name(d)
      ensures c == d
    {
      SpentNamesDiffer(ss, c, d) by { GoodIsDistinct(ss, f.All(), f.All()); }
    }
  }

  lemma GoodIsDistinct(ss: seq<Spend>, owners: seq<Coin>, funding: seq<Coin>)
    requires GoodSegment(ss, owners, funding)
    ensures Distinct(Coins(ss))
  {
  }

  /**
   A sound bundle leaves exactly the supply at the SGT puzzle, the reserve seed, the eleven singletons of the plan, its
   bridge coins, and change for the faucet, each once; or two of its coins share an id.
   */
  lemma BundleLeaves(p: Plan, iss: Issuance, faucet: Bytes32, f: Funding, n: nat, c: Coin)
    requires Accepts(p, iss, faucet, f, n) && Planned(p, f, n) && Sound(p, iss, faucet, f)
    requires Preexisting(Bundle(p, iss, faucet, f), f.All())
    ensures
      || ((c in Survivors(Bundle(p, iss, faucet, f)) <==> IsLeft(p, iss, faucet, f, c))
          && Distinct(Survivors(Bundle(p, iss, faucet, f))))
      || SomeSameName(Bundle(p, iss, faucet, f))
  {
    hide Name, Planned, Bundle, SomeSameName, BatchFunding, AuthorityMatches, LineageMatches, LauncherMatches,
      SingletonsMatch, IssueRepeats, GoodSegment, Preexisting, Separate, Survivors, IsLeft, IssueSegment, PoolSegment,
      AuthoritySegment, SingletonSegment, FromBatch, NamesDistinct, IsSupply, IsSeed, IsRest, IsSingleton, Distinct,
      LeftByParents, LeftByAuthority, LeftBySingles, Names, Unrelated, Closed;
    var all := f.All();
    var ss := Bundle(p, iss, faucet, f);
    if !SomeSameName(ss) {
      var ab := [f.authority] + [f.bridge];
      SoundBundleIsClosed(p, iss, faucet, f, n);
      LeftOnce(ss, all);
      BundleIsSeparate(p, iss, faucet, f, n);
      SeparateIsUnrelated(ss, all, all);
      SegmentsAreGood(p, iss, faucet, f, n);
      var issue, pool, singles := IssueSegment(p, iss, faucet, f), PoolSegment(p, f),
        SingletonSegment(faucet, SingletonInputs(p, f));
      BundleParts(p, iss, faucet, f);
      JoinBoth(issue, FromPool(p, faucet, f), all, [f.sgt], [f.pool] + (Singles(f) + ab), all, c);
      JoinBoth(pool, FromSingles(p, faucet, f), [f.pool] + (Singles(f) + ab), [f.pool], Singles(f) + ab, all, c);
      JoinBoth(singles, FromAuthority(p, faucet, f), Singles(f) + ab, Singles(f), ab, all, c);
      JoinBoth(AuthoritySegment(p, f), FromBatch(p, faucet, f), ab, [f.authority], [f.bridge], all, c);
      IssueLeaves(p, iss, faucet, f, all, c);
      PoolLeaves(p, f, all, c);
      NamesApart(p, iss, faucet, f, n);
      assert Owners(SingletonInputs(p, f)) == Singles(f);
      SingletonsLeave(faucet, SingletonInputs(p, f), all, c);
      SinglesLeft(p, faucet, f, c);
      AuthorityLeaves(p, f, all, c);
      AuthorityLeft(p, c);
      BatchLeaves(p, faucet, f, n, all, c);
      PartsLeave(p, iss, faucet, f, c);
    }
  }

  lemma SinglesLeft(p: Plan, faucet: Bytes32, f: Funding, c: Coin)
    ensures LeftBySingles(p, faucet, f, c) <==>
              exists i :: 0 <= i < |SingletonInputs(p, f)|
                && LeftByPair(faucet, SingletonInputs(p, f)[i].0, SingletonInputs(p, f)[i].1, c)
  {
    hide LeftByPair;
  }

  lemma AuthorityLeft(p: Plan, c: Coin)
    requires |p.identities| == 3
    ensures LeftByAuthority(p, c) <==>
              exists i :: 0 <= i < 4 && IsSingleton(c, AuthoritySurfaces(p)[i].0, AuthoritySurfaces(p)[i].1)
  {
    hide IsSingleton;
  }

  lemma BundleParts(p: Plan, iss: Issuance, faucet: Bytes32, f: Funding)
    requires p.totalSupply <= f.sgt.amount && SingletonsMatch(SingletonInputs(p, f)) && |p.identities| == 3
    ensures Bundle(p, iss, faucet, f) == IssueSegment(p, iss, faucet, f) + FromPool(p, faucet, f)
  {
    hide IssueSegment, PoolSegment, SingletonSegment, AuthoritySegment, BatchSegment, ParentSegment, SingletonsMatch;
  }

  lemma LeftOnce(ss: seq<Spend>, funding: seq<Coin>)
    requires Closed(ss, funding)
    ensures Distinct(Survivors(ss))
  {
    SelectMembers(AllMade(ss), Coins(ss), false);
  }

  lemma SeparateIsUnrelated(ss: seq<Spend>, owners: seq<Coin>, funding: seq<Coin>)
    requires Separate(ss, owners, funding)
    ensures Unrelated(funding)
  {
  }

  lemma JoinBoth(a: seq<Spend>, b: seq<Spend>, owners: seq<Coin>, ao: seq<Coin>, bo: seq<Coin>, funding: seq<Coin>,
                 c: Coin)
    requires Separate(a + b, owners, funding) && GoodSegment(a, ao, funding) && GoodSegment(b, bo, funding)
    ensures c in Survivors(a + b) <==> c in Survivors(a) || c in Survivors(b)
    ensures Separate(a, ao, funding) && Separate(b, bo, funding)
  {
    hide Separate, GoodSegment, Survivors;
    SurvivorsJoin(a, b, owners, ao, bo, funding, c);
    PartIsSeparate(b, a, owners, ao, funding);
    PartIsSeparate(a, b, owners, bo, funding);
  }

  // ---------------------------------------------------------------- whatever the hashes

  /** The coins are funding coins or children of one, and among the pool coin's children only launchers. */
  predicate Rooted(cs: seq<Coin>, f: Funding) {
    && AllOwned(cs, f.All())
    && forall c :: c in cs && c.parent == Name(f.pool) && c !in f.All() ==> c.puzzleHash == LAUNCHER
  }

  lemma RootedJoin(a: seq<Spend>, b: seq<Spend>, f: Funding)
    requires Rooted(Coins(a), f) && Rooted(Coins(b), f)
    ensures Rooted(Coins(a + b), f)
  {
    hide Name, Owned;
    CoinsSplit(a, b);
  }

  /** Funding coins and their launchers. */
  lemma LaunchersAreRooted(cs: seq<Coin>, f: Funding)
    requires forall c :: c in cs ==>
        c in f.All() || (c.puzzleHash == LAUNCHER && exists o :: o in f.All() && c.parent == Name(o))
    ensures Rooted(cs, f)
  {
    hide Name;
  }

  lemma IssueIsRooted(p: Plan, iss: Issuance, faucet: Bytes32, f: Funding)
    requires p.totalSupply <= f.sgt.amount && |p.identities| == 3 && Name(f.sgt) != Name(f.pool)
    ensures Rooted(Coins(IssueSegment(p, iss, faucet, f)), f)
  {
    hide Name, IssueSegment, LauncherAssertion, LauncherAssertions, LauncherMessage;
    OtherCoins(p, iss, faucet, f);
    assert f.sgt in f.All();
  }

  lemma PoolAndAuthorityAreRooted(p: Plan, iss: Issuance, faucet: Bytes32, f: Funding)
    requires p.totalSupply <= f.sgt.amount && |p.identities| == 3
    ensures Rooted(Coins(PoolSegment(p, f)), f) && Rooted(Coins(AuthoritySegment(p, f)), f)
  {
    hide Name, PoolSegment, AuthoritySegment, Rooted;
    OtherCoins(p, iss, faucet, f);
    assert f.pool in f.All() && f.authority in f.All();
    LaunchersAreRooted(Coins(PoolSegment(p, f)), f);
    LaunchersAreRooted(Coins(AuthoritySegment(p, f)), f);
  }

  lemma BatchIsRooted(p: Plan, faucet: Bytes32, f: Funding)
    requires forall c :: c in p.parents ==> c.parent == Name(f.bridge)
    requires Name(f.bridge) != Name(f.pool)
    ensures Rooted(Coins(FromBatch(p, faucet, f)), f)
  {
    hide Name, BatchSegment, ParentSegment;
    BatchCoins(p, faucet, f);
    CoinsSplit(BatchSegment(p, faucet, f), ParentSegment(p.policyHash, faucet, p.parents));
    ParentCoins(p.policyHash, faucet, p.parents);
    assert f.bridge in f.All();
  }

  lemma SinglesAreRooted(p: Plan, faucet: Bytes32, f: Funding)
    requires SingletonsMatch(SingletonInputs(p, f))
    ensures Rooted(Coins(SingletonSegment(faucet, SingletonInputs(p, f))), f)
  {
    hide Name, LauncherMatches, SingletonSegment, Rooted;
    SingletonCoins(faucet, SingletonInputs(p, f));
    var owners := Owners(SingletonInputs(p, f));
    assert owners == Singles(f);
    assert forall o :: o in owners ==> o in f.All();
    LaunchersAreRooted(Coins(SingletonSegment(faucet, SingletonInputs(p, f))), f);
  }

  lemma BundleIsRooted(p: Plan, iss: Issuance, faucet: Bytes32, f: Funding, n: nat)
    requires Accepts(p, iss, faucet, f, n)
    ensures Rooted(Coins(Bundle(p, iss, faucet, f)), f)
  {
    hide Name, LauncherMatches, BatchFunding, AuthorityMatches, SingletonsMatch, NamesDistinct, IssueSegment, Rooted,
      PoolSegment, SingletonSegment, AuthoritySegment, BatchSegment, ParentSegment, Distinct;
    BundleParts(p, iss, faucet, f);
    SgtPoolAndBridgeDiffer(p, iss, faucet, f, n);
    assert forall c :: c in p.parents ==> c.parent == Name(f.bridge);
    IssueIsRooted(p, iss, faucet, f);
    PoolAndAuthorityAreRooted(p, iss, faucet, f);
    SinglesAreRooted(p, faucet, f);
    BatchIsRooted(p, faucet, f);
    RootedJoin(AuthoritySegment(p, f), FromBatch(p, faucet, f), f);
    RootedJoin(SingletonSegment(faucet, SingletonInputs(p, f)), FromAuthority(p, faucet, f), f);
    RootedJoin(PoolSegment(p, f), FromSingles(p, faucet, f), f);
    RootedJoin(IssueSegment(p, iss, faucet, f), FromPool(p, faucet, f), f);
  }

  lemma SgtPoolAndBridgeDiffer(p: Plan, iss: Issuance, faucet: Bytes32, f: Funding, n: nat)
    requires FundingAccepted(p, iss, faucet, f, n)
    ensures Name(f.sgt) != Name(f.pool) && Name(f.bridge) != Name(f.pool)
  {
    hide Name, BatchFunding;
    var all := f.All();
    assert all[0] == f.sgt && all[1] == f.pool && all[8] == f.bridge;
    assert p.fundingIds[0] == Name(all[0]) && p.fundingIds[1] == Name(all[1]) && p.fundingIds[8] == Name(all[8]);
  }

  lemma OtherCoins(p: Plan, iss: Issuance, faucet: Bytes32, f: Funding)
    requires p.totalSupply <= f.sgt.amount && |p.identities| == 3
    ensures Coins(IssueSegment(p, iss, faucet, f)) == [f.sgt, EveCoin(p, iss, f)]
    ensures Coins(PoolSegment(p, f)) == [f.pool, LauncherCoin(f.pool, 1)]
    ensures Coins(AuthoritySegment(p, f)) == [LauncherCoin(f.authority, 1), LauncherCoin(f.authority, 3),
                                              LauncherCoin(f.authority, 5), LauncherCoin(f.authority, 7), f.authority]
  {
    hide Name, LauncherAssertion, LauncherAssertions, LauncherMessage;
  }

  lemma {:induction false} SingletonCoins(faucet: Bytes32, inputs: seq<(Coin, Surface)>)
    requires SingletonsMatch(inputs)
    ensures forall c :: c in Coins(SingletonSegment(faucet, inputs)) ==>
        c in Owners(inputs) || exists o :: o in Owners(inputs) && c == LauncherCoin(o, 1)
    ensures forall i :: 0 <= i < |inputs| ==>
        LauncherSpend(inputs[i].0, inputs[i].1, 1) in SingletonSegment(faucet, inputs)
  {
    hide Name, LauncherMatches, LauncherAssertion, LauncherMessage;
    if inputs != [] {
      var n := |inputs| - 1;
      SingletonCoins(faucet, inputs[..n]);
      var pair := SingletonPair(faucet, inputs[n].0, inputs[n].1);
      CoinsSplit(SingletonSegment(faucet, inputs[..n]), pair);
      assert Coins(pair) == [inputs[n].0, LauncherCoin(inputs[n].0, 1)];
      assert Owners(inputs) == Owners(inputs[..n]) + [inputs[n].0];
      assert pair[1] == LauncherSpend(inputs[n].0, inputs[n].1, 1);
      assert forall i :: 0 <= i < n ==> inputs[i] == inputs[..n][i];
    }
  }

  /** A coin that a spent child of a funding coin makes is left, or two coins share an id. */
  lemma MadeByChildIsLeft(ss: seq<Spend>, f: Funding, s: Spend, o: Output, c: Coin)
    requires Rooted(Coins(ss), f) && Preexisting(ss, f.All()) && Within(f.All(), Coins(ss)) && !SomeSameName(ss)
    requires s in ss && o in s.outputs && c == Coin(Name(s.coin), o.puzzleHash, o.amount)
    requires exists d :: d in f.All() && s.coin.parent == Name(d)
    ensures c in Survivors(ss)
  {
    hide Name, SomeSameName;
    MadeBySpend(ss, s, o);
    SurvivorsAre(ss, c);
    var k :| 0 <= k < |ss| && ss[k] == s;
    assert Coins(ss)[k] == s.coin;
    if c in Coins(ss) {
      assert Owned(c, f.All());
      var d :| d in f.All() && c.parent == Name(d);
      DifferentSpentNames(ss, d, s.coin);
    }
  }

  lemma DifferentSpentNames(ss: seq<Spend>, c: Coin, d: Coin)
    requires c in Coins(ss) && d in Coins(ss) && c != d && !SomeSameName(ss)
    ensures Name(c) != Name(d)
  {
    hide Name;
    var i :| 0 <= i < |ss| && Coins(ss)[i] == c;
    var j :| 0 <= j < |ss| && Coins(ss)[j] == d;
    NamesTellCoinsApart(ss[if i < j then i else j].coin, ss[if i < j then j else i].coin);
  }

  /** The launcher spend of each planned singleton is in the bundle, at the id the plan names. */
  lemma LauncherOf(p: Plan, iss: Issuance, faucet: Bytes32, f: Funding, n: nat, i: nat) returns (o: Coin)
    requires Accepts(p, iss, faucet, f, n) && i < |Surfaces(p)|
    ensures o in f.All() && LauncherMatches(o, Surfaces(p)[i].1, Surfaces(p)[i].0)
    ensures LauncherSpend(o, Surfaces(p)[i].1, Surfaces(p)[i].0) in Bundle(p, iss, faucet, f)
  {
    hide Name, LauncherMatches, LauncherAssertion, LauncherAssertions, LauncherSpend, SingletonSegment, BatchFunding,
      ParentSegment, IssueSegment, BatchSpend, Distinct, LineageMatches;
    var inputs := SingletonInputs(p, f);
    SingletonCoins(faucet, inputs);
    if i == 0 {
      o := f.pool;
      assert PoolSegment(p, f)[1] == LauncherSpend(f.pool, p.pool, 1);
    } else if i <= 5 {
      o := inputs[i - 1].0;
      assert inputs[i - 1].1 == Surfaces(p)[i].1;
    } else if i <= 9 {
      o := f.authority;
      assert AuthoritySurfaces(p)[i - 6] == Surfaces(p)[i];
      assert AuthoritySegment(p, f)[i - 6] == LauncherSpend(f.authority, Surfaces(p)[i].1, Surfaces(p)[i].0);
    } else {
      o := f.bridge;
      assert BatchSegment(p, faucet, f)[1] == LauncherSpend(f.bridge, p.property, 1);
    }
  }

  /**
   Every accepted bundle leaves the supply at the plan's SGT puzzle and the eleven singletons of the plan, and it leaves
   the reserve seed exactly when that is not a launcher; or two of its coins share an id.
   */
  lemma AcceptedBundleLeaves(p: Plan, iss: Issuance, faucet: Bytes32, f: Funding, n: nat, supply: Coin, seed: Coin)
    requires Accepts(p, iss, faucet, f, n) && Preexisting(Bundle(p, iss, faucet, f), f.All())
    requires IsSupply(p, iss, f, supply) && IsSeed(p, f, seed)
    ensures
      || (&& supply in Survivors(Bundle(p, iss, faucet, f))
          && (forall c :: IsSurface(p, c) ==> c in Survivors(Bundle(p, iss, faucet, f)))
          && (seed in Survivors(Bundle(p, iss, faucet, f)) <==> p.seedPuzzleHash != LAUNCHER))
      || SomeSameName(Bundle(p, iss, faucet, f))
  {
    hide Name, LauncherMatches, SomeSameName, Survivors, Rooted, BatchFunding, Distinct, LineageMatches, Preexisting,
      SingletonsMatch, AuthorityMatches, Bundle, Surfaces, Coins, Names;
    var ss := Bundle(p, iss, faucet, f);
    if !SomeSameName(ss) {
      BundleIsRooted(p, iss, faucet, f, n);
      FundingIsSpent(p, iss, faucet, f, n);
      SupplyIsLeft(p, iss, faucet, f, n, supply);
      SeedIsLeft(p, iss, faucet, f, n, seed);
      forall c | IsSurface(p, c)
        ensures c in Survivors(ss)
      {
        var i :| 0 <= i < |Surfaces(p)| && IsSingleton(c, Surfaces(p)[i].0, Surfaces(p)[i].1);
        SurfaceIsLeft(p, iss, faucet, f, n, i, c);
      }
    }
  }

  lemma SupplyIsLeft(p: Plan, iss: Issuance, faucet: Bytes32, f: Funding, n: nat, c: Coin)
    requires Accepts(p, iss, faucet, f, n) && Preexisting(Bundle(p, iss, faucet, f), f.All())
    requires !SomeSameName(Bundle(p, iss, faucet, f)) && IsSupply(p, iss, f, c)
    requires Rooted(Coins(Bundle(p, iss, faucet, f)), f) && Within(f.All(), Coins(Bundle(p, iss, faucet, f)))
    ensures c in Survivors(Bundle(p, iss, faucet, f))
  {
    hide Name, LauncherMatches, SomeSameName, Survivors, Rooted, BatchFunding, Distinct, LineageMatches, Preexisting,
      SingletonsMatch, AuthorityMatches, Coins, Names, PoolSegment, SingletonSegment, AuthoritySegment, BatchSegment,
      ParentSegment;
    var s := IssueSegment(p, iss, faucet, f)[1];
    assert s.outputs[0] == Output(p.sgtFullPuzzleHash, p.totalSupply);
    assert f.sgt in f.All();
    MadeByChildIsLeft(Bundle(p, iss, faucet, f), f, s, s.outputs[0], c);
  }

  lemma SurfaceIsLeft(p: Plan, iss: Issuance, faucet: Bytes32, f: Funding, n: nat, i: nat, c: Coin)
    requires Accepts(p, iss, faucet, f, n) && Preexisting(Bundle(p, iss, faucet, f), f.All())
    requires !SomeSameName(Bundle(p, iss, faucet, f))
    requires i < |Surfaces(p)| && IsSingleton(c, Surfaces(p)[i].0, Surfaces(p)[i].1)
    requires Rooted(Coins(Bundle(p, iss, faucet, f)), f) && Within(f.All(), Coins(Bundle(p, iss, faucet, f)))
    ensures c in Survivors(Bundle(p, iss, faucet, f))
  {
    hide Name, SomeSameName, Survivors, Rooted, BatchFunding, Distinct, LineageMatches, Preexisting,
      SingletonsMatch, AuthorityMatches, Coins, Names, Bundle, Surfaces, LauncherMessage;
    var o := LauncherOf(p, iss, faucet, f, n, i);
    var s := LauncherSpend(o, Surfaces(p)[i].1, Surfaces(p)[i].0);
    assert s.outputs[0] == Output(Surfaces(p)[i].1.fullPuzzleHash, Surfaces(p)[i].0);
    MadeByChildIsLeft(Bundle(p, iss, faucet, f), f, s, s.outputs[0], c);
  }

  lemma SeedIsLeft(p: Plan, iss: Issuance, faucet: Bytes32, f: Funding, n: nat, c: Coin)
    requires Accepts(p, iss, faucet, f, n) && Preexisting(Bundle(p, iss, faucet, f), f.All())
    requires !SomeSameName(Bundle(p, iss, faucet, f)) && IsSeed(p, f, c)
    requires Rooted(Coins(Bundle(p, iss, faucet, f)), f) && Within(f.All(), Coins(Bundle(p, iss, faucet, f)))
    ensures c in Survivors(Bundle(p, iss, faucet, f)) <==> p.seedPuzzleHash != LAUNCHER
  {
    hide Name, LauncherMatches, SomeSameName, Survivors, BatchFunding, Distinct, LineageMatches, Bundle, PoolSegment,
      SingletonsMatch, AuthorityMatches, Names, AllOwned;
    var ss := Bundle(p, iss, faucet, f);
    PoolInBundle(p, iss, faucet, f);
    MadeBySpend(ss, PoolSegment(p, f)[0], Output(p.seedPuzzleHash, 1));
    SurvivorsAre(ss, c);
    assert f.pool in f.All();
  }

  lemma PoolInBundle(p: Plan, iss: Issuance, faucet: Bytes32, f: Funding)
    requires p.totalSupply <= f.sgt.amount && SingletonsMatch(SingletonInputs(p, f)) && |p.identities| == 3
    ensures |PoolSegment(p, f)| == 2 && PoolSegment(p, f)[0] in Bundle(p, iss, faucet, f)
    ensures PoolSegment(p, f)[0].coin == f.pool && Output(p.seedPuzzleHash, 1) in PoolSegment(p, f)[0].outputs
    ensures LauncherCoin(f.pool, 1) in Coins(Bundle(p, iss, faucet, f))
  {
    hide Name, LauncherAssertion, LauncherMessage, SingletonsMatch, IssueSegment, SingletonSegment, AuthoritySegment,
      BatchSegment, ParentSegment;
    var pool := PoolSegment(p, f);
    assert pool[0].outputs[1] == Output(p.seedPuzzleHash, 1);
    BundleParts(p, iss, faucet, f);
    CoinsSplit(IssueSegment(p, iss, faucet, f), FromPool(p, faucet, f));
    CoinsSplit(pool, FromSingles(p, faucet, f));
    assert Coins(pool)[1] == LauncherCoin(f.pool, 1);
  }
}
