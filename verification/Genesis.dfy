/**
 The genesis bundle: nine funding coins become eleven singletons, the SGT reserve, the reserve seed and a batch of
 bridge coins.  The batch size is a parameter; the release uses 32.
 */
module Genesis {
  import opened Hashing
  import opened Results
  import opened Clvm
  import opened Currying
  import opened Sequences
  import opened Ledger

  const LAUNCHER := SINGLETON_LAUNCHER_HASH
  const POOL_FUNDING := 2
  const AUTHORITY_FUNDING := 16
  const BATCH_BUFFER := 1

  /** 1 + 2 + ... + n. */
  function BridgeTotal(n: nat): nat {
    if n == 0 then 0 else BridgeTotal(n - 1) + n
  }

  function BatchFunding(n: nat): nat {
    BridgeTotal(n) + 1 + BATCH_BUFFER
  }

  datatype Funding = Funding(
    sgt: Coin, pool: Coin, did: Coin, governance: Coin, statutes: Coin, config: Coin,
    authority: Coin, vaultRegistry: Coin, bridge: Coin)
  {
    function All(): seq<Coin> {
      [sgt, pool, did, governance, statutes, config, authority, vaultRegistry, bridge]
    }
  }

  datatype Surface = Surface(launcherId: Bytes32, fullPuzzleHash: Bytes32)

  datatype Plan = Plan(
    fundingIds: seq<Bytes32>,
    faucet: Bytes32,
    sgtFullPuzzleHash: Bytes32,
    totalSupply: nat,
    pool: Surface,
    seedPuzzleHash: Bytes32,
    seedCoinId: Bytes32,
    did: Surface, governance: Surface, statutes: Surface, config: Surface, vaultRegistry: Surface,
    authority: Surface,
    identities: seq<Surface>,
    property: Surface,
    policyHash: Bytes32,
    parents: seq<Coin>,
    bridges: seq<Coin>)

  /** What the CAT machinery derives from the plan: the one-time eve puzzle and the reserve puzzle. */
  datatype Issuance = Issuance(evePuzzleHash: Bytes32, reservePuzzleHash: Bytes32)

  // ---------------------------------------------------------------- the planner's batch

  function PlannedParents(batch: Bytes32, faucet: Bytes32, n: nat): seq<Coin> {
    seq(n, i requires 0 <= i < n => Coin(batch, faucet, i + 1))
  }

  /** The batch fields are those the planner derives from the bridge funding id. */
  predicate Planned(p: Plan, f: Funding, n: nat) {
    && p.parents == PlannedParents(Name(f.bridge), p.faucet, n)
    && |p.bridges| == n
    && forall i :: 0 <= i < n ==> p.bridges[i] == Coin(Name(p.parents[i]), p.policyHash, 1)
  }

  // ---------------------------------------------------------------- single spends

  function WithChange(target: Output, faucet: Bytes32, change: nat): seq<Output> {
    [target] + if change > 0 then [Output(faucet, change)] else []
  }

  function FundingSpend(faucet: Bytes32, coin: Coin, target: Output, asserts: seq<Bytes32>): Spend
    requires target.amount <= coin.amount
  {
    Spend(coin, WithChange(target, faucet, coin.amount - target.amount), asserts, [])
  }

  function LauncherCoin(parent: Coin, amount: nat): Coin {
    Coin(Name(parent), LAUNCHER, amount)
  }

  function LauncherMessage(s: Surface, amount: nat): Bytes32 {
    TreeHash(ListOf([Atom(s.fullPuzzleHash), IntTree(amount), NIL]))
  }

  function LauncherSpend(parent: Coin, s: Surface, amount: nat): Spend {
    Spend(LauncherCoin(parent, amount), [Output(s.fullPuzzleHash, amount)], [], [LauncherMessage(s, amount)])
  }

  function LauncherAssertion(parent: Coin, s: Surface, amount: nat): Bytes32 {
    AnnouncementId(LauncherCoin(parent, amount), LauncherMessage(s, amount))
  }

  predicate LauncherMatches(parent: Coin, s: Surface, amount: nat) {
    Name(LauncherCoin(parent, amount)) == s.launcherId
  }

  function EveCoin(p: Plan, iss: Issuance, f: Funding): Coin {
    Coin(Name(f.sgt), iss.evePuzzleHash, p.totalSupply)
  }

  function ParentSpend(policy: Bytes32, faucet: Bytes32, parent: Coin): Spend {
    Spend(parent, WithChange(Output(policy, 1), faucet, if parent.amount > 1 then parent.amount - 1 else 0), [], [])
  }

  // ---------------------------------------------------------------- the bundle in segments

  function IssueSegment(p: Plan, iss: Issuance, faucet: Bytes32, f: Funding): seq<Spend>
    requires p.totalSupply <= f.sgt.amount
  {
    [FundingSpend(faucet, f.sgt, Output(iss.evePuzzleHash, p.totalSupply), []),
     Spend(EveCoin(p, iss, f), [Output(iss.reservePuzzleHash, p.totalSupply)], [], [])]
  }

  function PoolSegment(p: Plan, f: Funding): seq<Spend> {
    [Spend(f.pool, [Output(LAUNCHER, 1), Output(p.seedPuzzleHash, 1)], [LauncherAssertion(f.pool, p.pool, 1)], []),
     LauncherSpend(f.pool, p.pool, 1)]
  }

  function SingletonInputs(p: Plan, f: Funding): seq<(Coin, Surface)> {
    [(f.did, p.did), (f.governance, p.governance), (f.statutes, p.statutes), (f.config, p.config),
     (f.vaultRegistry, p.vaultRegistry)]
  }

  predicate SingletonsMatch(inputs: seq<(Coin, Surface)>) {
    forall i :: 0 <= i < |inputs| ==> LauncherMatches(inputs[i].0, inputs[i].1, 1) && inputs[i].0.amount >= 1
  }

  function SingletonPair(faucet: Bytes32, coin: Coin, s: Surface): seq<Spend>
    requires coin.amount >= 1
  {
    [FundingSpend(faucet, coin, Output(LAUNCHER, 1), [LauncherAssertion(coin, s, 1)]), LauncherSpend(coin, s, 1)]
  }

  function SingletonSegment(faucet: Bytes32, inputs: seq<(Coin, Surface)>): seq<Spend>
    requires SingletonsMatch(inputs)
  {
    if inputs == [] then []
    else
      var n := |inputs| - 1;
      SingletonSegment(faucet, inputs[..n]) + SingletonPair(faucet, inputs[n].0, inputs[n].1)
  }

  function AuthoritySurfaces(p: Plan): seq<(nat, Surface)>
    requires |p.identities| == 3
  {
    [(1, p.authority), (3, p.identities[0]), (5, p.identities[1]), (7, p.identities[2])]
  }

  predicate AuthorityMatches(p: Plan, f: Funding)
    requires |p.identities| == 3
  {
    forall i :: 0 <= i < 4 ==> LauncherMatches(f.authority, AuthoritySurfaces(p)[i].1, AuthoritySurfaces(p)[i].0)
  }

  function LauncherSpends(parent: Coin, surfaces: seq<(nat, Surface)>): seq<Spend> {
    seq(|surfaces|, i requires 0 <= i < |surfaces| => LauncherSpend(parent, surfaces[i].1, surfaces[i].0))
  }

  function LauncherAssertions(parent: Coin, surfaces: seq<(nat, Surface)>): seq<Bytes32> {
    seq(|surfaces|, i requires 0 <= i < |surfaces| => LauncherAssertion(parent, surfaces[i].1, surfaces[i].0))
  }

  function AuthorityFunding(p: Plan, f: Funding): Spend
    requires |p.identities| == 3
  {
    Spend(f.authority, [Output(LAUNCHER, 1), Output(LAUNCHER, 3), Output(LAUNCHER, 5), Output(LAUNCHER, 7)],
          LauncherAssertions(f.authority, AuthoritySurfaces(p)), [])
  }

  function AuthoritySegment(p: Plan, f: Funding): seq<Spend>
    requires |p.identities| == 3
  {
    LauncherSpends(f.authority, AuthoritySurfaces(p)) + [AuthorityFunding(p, f)]
  }

  function ParentOutputs(faucet: Bytes32, parents: seq<Coin>): seq<Output> {
    seq(|parents|, i requires 0 <= i < |parents| => Output(faucet, parents[i].amount))
  }

  function BatchSpend(p: Plan, faucet: Bytes32, f: Funding): Spend {
    Spend(f.bridge, ParentOutputs(faucet, p.parents) + [Output(LAUNCHER, 1)],
          [LauncherAssertion(f.bridge, p.property, 1)], [])
  }

  function BatchSegment(p: Plan, faucet: Bytes32, f: Funding): seq<Spend> {
    [BatchSpend(p, faucet, f), LauncherSpend(f.bridge, p.property, 1)]
  }

  function ParentSegment(policy: Bytes32, faucet: Bytes32, parents: seq<Coin>): seq<Spend> {
    seq(|parents|, i requires 0 <= i < |parents| => ParentSpend(policy, faucet, parents[i]))
  }

  predicate FundingAccepted(p: Plan, iss: Issuance, faucet: Bytes32, f: Funding, n: nat) {
    && Distinct(p.fundingIds) && ZERO_32 !in p.fundingIds
    && p.fundingIds == Names(f.All())
    && (forall c :: c in f.All() ==> c.puzzleHash == faucet)
    && f.bridge.amount == BatchFunding(n)
    && f.pool.amount == POOL_FUNDING
    && f.authority.amount == AUTHORITY_FUNDING
    && iss.reservePuzzleHash == p.sgtFullPuzzleHash
    && f.sgt.amount >= p.totalSupply
  }

  /** The conditions under which a bundle of batch size `n` is built. */
  predicate Accepts(p: Plan, iss: Issuance, faucet: Bytes32, f: Funding, n: nat) {
    && FundingAccepted(p, iss, faucet, f, n)
    && LauncherMatches(f.pool, p.pool, 1)
    && Name(Coin(Name(f.pool), p.seedPuzzleHash, 1)) == p.seedCoinId
    && SingletonsMatch(SingletonInputs(p, f))
    && |p.identities| == 3 && AuthorityMatches(p, f)
    && LauncherMatches(f.bridge, p.property, 1)
    && |p.parents| == |p.bridges| == n
    && LineageMatches(p, f, n)
  }

  function Names(cs: seq<Coin>): seq<Bytes32> {
    seq(|cs|, i requires 0 <= i < |cs| => Name(cs[i]))
  }

  predicate LineageMatches(p: Plan, f: Funding, n: nat)
    requires |p.parents| == |p.bridges| == n
  {
    forall i :: 0 <= i < n ==> p.parents[i].parent == Name(f.bridge) && p.bridges[i].parent == Name(p.parents[i])
  }

  function Bundle(p: Plan, iss: Issuance, faucet: Bytes32, f: Funding): seq<Spend>
    requires p.totalSupply <= f.sgt.amount && SingletonsMatch(SingletonInputs(p, f)) && |p.identities| == 3
  {
    IssueSegment(p, iss, faucet, f)
    + (PoolSegment(p, f)
       + (SingletonSegment(faucet, SingletonInputs(p, f))
          + (AuthoritySegment(p, f)
             + (BatchSegment(p, faucet, f)
                + ParentSegment(p.policyHash, faucet, p.parents)))))
  }

  // ---------------------------------------------------------------- the builder

  /** Appends the spends of the plain singletons, checking each launcher and amount. */
  method AppendSingletons(faucet: Bytes32, inputs: seq<(Coin, Surface)>, before: seq<Spend>)
    returns (r: Result<seq<Spend>>)
    ensures r.Ok? <==> SingletonsMatch(inputs)
    ensures r.Ok? ==> r.value == before + SingletonSegment(faucet, inputs)
  {
    hide LauncherMatches, SingletonPair;
    var spends := before;
    var i := 0;
    while i < |inputs|
      invariant 0 <= i <= |inputs|
      invariant SingletonsMatch(inputs[..i])
      invariant spends == before + SingletonSegment(faucet, inputs[..i])
    {
      var (coin, surface) := inputs[i];
      if !LauncherMatches(coin, surface, 1) {
        return Err("derived launcher id does not match ceremony plan");
      }
      if coin.amount < 1 {
        return Err("genesis funding coin is too small");
      }
      assert inputs[..i + 1][..i] == inputs[..i];
      spends := spends + SingletonPair(faucet, coin, surface);
      i := i + 1;
    }
    assert inputs[..|inputs|] == inputs;
    return Ok(spends);
  }

  /** Appends the launcher spends of the authority and its identities and collects their assertions. */
  method AppendLaunchers(parent: Coin, surfaces: seq<(nat, Surface)>, before: seq<Spend>)
    returns (r: Result<(seq<Spend>, seq<Bytes32>)>)
    ensures r.Ok? <==> forall i :: 0 <= i < |surfaces| ==> LauncherMatches(parent, surfaces[i].1, surfaces[i].0)
    ensures r.Ok? ==> r.value == (before + LauncherSpends(parent, surfaces), LauncherAssertions(parent, surfaces))
  {
    hide LauncherMatches, LauncherSpend, LauncherAssertion;
    var spends, asserts := before, [];
    for i := 0 to |surfaces|
      invariant forall j :: 0 <= j < i ==> LauncherMatches(parent, surfaces[j].1, surfaces[j].0)
      invariant spends == before + LauncherSpends(parent, surfaces[..i])
      invariant asserts == LauncherAssertions(parent, surfaces[..i])
    {
      var (amount, surface) := surfaces[i];
      if !LauncherMatches(parent, surface, amount) {
        return Err("derived launcher id does not match ceremony plan");
      }
      assert LauncherSpends(parent, surfaces[..i + 1])
          == LauncherSpends(parent, surfaces[..i]) + [LauncherSpend(parent, surface, amount)];
      spends := spends + [LauncherSpend(parent, surface, amount)];
      asserts := asserts + [LauncherAssertion(parent, surface, amount)];
    }
    assert surfaces[..|surfaces|] == surfaces;
    return Ok((spends, asserts));
  }

  /** Appends the spends of the bridge parents, checking the lineage of each parent and bridge coin. */
  method AppendParents(p: Plan, faucet: Bytes32, f: Funding, before: seq<Spend>) returns (r: Result<seq<Spend>>)
    ensures r.Ok? <==> |p.parents| == |p.bridges| && LineageMatches(p, f, |p.parents|)
    ensures r.Ok? ==> r.value == before + ParentSegment(p.policyHash, faucet, p.parents)
  {
    hide ParentSpend, Name;
    if |p.parents| != |p.bridges| {
      return Err("parents and bridge coins differ in number");
    }
    var spends := before;
    for i := 0 to |p.parents|
      invariant forall j :: 0 <= j < i ==>
        p.parents[j].parent == Name(f.bridge) && p.bridges[j].parent == Name(p.parents[j])
      invariant spends == before + ParentSegment(p.policyHash, faucet, p.parents[..i])
    {
      if p.parents[i].parent != Name(f.bridge) {
        return Err("bridge parent lineage does not match batch input");
      }
      if p.bridges[i].parent != Name(p.parents[i]) {
        return Err("bridge coin lineage does not match parent");
      }
      assert ParentSegment(p.policyHash, faucet, p.parents[..i + 1])
          == ParentSegment(p.policyHash, faucet, p.parents[..i]) + [ParentSpend(p.policyHash, faucet, p.parents[i])];
      spends := spends + [ParentSpend(p.policyHash, faucet, p.parents[i])];
    }
    assert p.parents[..|p.parents|] == p.parents;
    return Ok(spends);
  }

  lemma DifferentIdsDifferentCoins(cs: seq<Coin>)
    ensures Distinct(Names(cs)) ==> Distinct(cs)
  {
    hide Name;
    assert forall i :: 0 <= i < |cs| ==> Names(cs)[i] == Name(cs[i]);
  }

  /** Accepts nine different coins of the faucet with the plan's ids and the exact amounts. */
  method CheckFunding(p: Plan, iss: Issuance, faucet: Bytes32, f: Funding, n: nat) returns (r: Result<()>)
    ensures r.Ok? <==> FundingAccepted(p, iss, faucet, f, n)
    ensures r.Ok? ==> Distinct(f.All())
  {
    hide Name, BridgeTotal;
    DifferentIdsDifferentCoins(f.All());
    if !Distinct(p.fundingIds) || ZERO_32 in p.fundingIds || p.fundingIds != Names(f.All()) {
      return Err("live funding coins do not match the signed plan");
    }
    if exists c :: c in f.All() && c.puzzleHash != faucet {
      return Err("every funding coin must belong to the ceremony faucet");
    }
    if f.bridge.amount != BatchFunding(n) {
      return Err("bridge batch funding coin is not exact");
    }
    if f.pool.amount != POOL_FUNDING || f.authority.amount != AUTHORITY_FUNDING {
      return Err("pool or admin authority funding coin is not exact");
    }
    if iss.reservePuzzleHash != p.sgtFullPuzzleHash || f.sgt.amount < p.totalSupply {
      return Err("SGT issuance does not match the plan or its funding");
    }
    return Ok(());
  }

  /** Builds the bundle, or refuses on exactly the inputs that are not accepted. */
  method BuildBundle(p: Plan, iss: Issuance, faucet: Bytes32, f: Funding, n: nat) returns (r: Result<seq<Spend>>)
    requires |p.identities| == 3
    ensures r.Ok? <==> Accepts(p, iss, faucet, f, n)
    ensures r.Ok? ==> r.value == Bundle(p, iss, faucet, f) && |r.value| == 21 + n
  {
    hide Name, LauncherMatches, Names, Distinct, BatchFunding, SingletonSegment, SingletonInputs, SingletonsMatch,
      IssueSegment, PoolSegment, BatchSegment, ParentSegment, LauncherSpends, LauncherAssertions, AuthoritySurfaces,
      AuthorityMatches, LineageMatches;
    var funding := CheckFunding(p, iss, faucet, f, n);
    if funding.Err? {
      return Err(funding.reason);
    }
    var issue := IssueSegment(p, iss, faucet, f);
    if !LauncherMatches(f.pool, p.pool, 1) || Name(Coin(Name(f.pool), p.seedPuzzleHash, 1)) != p.seedCoinId {
      return Err("pool launcher or reserve seed does not match plan");
    }
    var singles := AppendSingletons(faucet, SingletonInputs(p, f), issue + PoolSegment(p, f));
    if singles.Err? {
      return Err(singles.reason);
    }
    AuthorityMatchesMeans(p, f);
    var launchers := AppendLaunchers(f.authority, AuthoritySurfaces(p), singles.value);
    if launchers.Err? {
      return Err(launchers.reason);
    }
    var spends := launchers.value.0
      + [Spend(f.authority, [Output(LAUNCHER, 1), Output(LAUNCHER, 3), Output(LAUNCHER, 5), Output(LAUNCHER, 7)],
               launchers.value.1, [])];
    assert spends == singles.value + AuthoritySegment(p, f);
    if !LauncherMatches(f.bridge, p.property, 1) {
      return Err("derived launcher id does not match ceremony plan");
    }
    spends := spends + BatchSegment(p, faucet, f);
    var parents := AppendParents(p, faucet, f, spends);
    if parents.Err? {
      return Err(parents.reason);
    }
    if |p.parents| != n {
      return Err("wrong number of spends");
    }
    Reassociate(issue, PoolSegment(p, f), SingletonSegment(faucet, SingletonInputs(p, f)), AuthoritySegment(p, f),
                BatchSegment(p, faucet, f), ParentSegment(p.policyHash, faucet, p.parents));
    BundleSize(p, iss, faucet, f);
    return Ok(parents.value);
  }

  lemma Reassociate(a: seq<Spend>, b: seq<Spend>, c: seq<Spend>, d: seq<Spend>, e: seq<Spend>, g: seq<Spend>)
    ensures a + b + c + d + e + g == a + (b + (c + (d + (e + g))))
  {
  }

  lemma AuthorityMatchesMeans(p: Plan, f: Funding)
    requires |p.identities| == 3
    ensures |AuthoritySurfaces(p)| == 4
    ensures AuthorityMatches(p, f) <==>
            forall i :: 0 <= i < 4 ==>
              LauncherMatches(f.authority, AuthoritySurfaces(p)[i].1, AuthoritySurfaces(p)[i].0)
  {
    hide LauncherMatches;
  }

  lemma BundleSize(p: Plan, iss: Issuance, faucet: Bytes32, f: Funding)
    requires p.totalSupply <= f.sgt.amount && SingletonsMatch(SingletonInputs(p, f)) && |p.identities| == 3
    ensures |Bundle(p, iss, faucet, f)| == 21 + |p.parents|
  {
    hide LauncherMatches, SingletonSegment, SingletonInputs;
    SingletonSegmentSize(faucet, SingletonInputs(p, f));
    assert |SingletonInputs(p, f)| == 5 by {
      FiveSingletons(p, f);
    }
  }

  lemma FiveSingletons(p: Plan, f: Funding)
    ensures |SingletonInputs(p, f)| == 5
  {
  }

  lemma {:induction false} SingletonSegmentSize(faucet: Bytes32, inputs: seq<(Coin, Surface)>)
    requires SingletonsMatch(inputs)
    ensures |SingletonSegment(faucet, inputs)| == 2 * |inputs|
  {
    hide LauncherMatches;
    if inputs != [] {
      SingletonSegmentSize(faucet, inputs[..|inputs| - 1]);
    }
  }
}
