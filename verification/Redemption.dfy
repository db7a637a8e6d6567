/**
 Funded redemptions: allocations in canonical order, their root, and the plan that pays them.
 */
module Redemption {
  import opened Hashing
  import opened Results
  import opened Sequences
  import opened Sorting
  import opened Clvm
  import Settlement

  datatype Allocation = Allocation(deed: Bytes, commitment: Bytes, sharePpm: int, payment: int)

  const MAX_PAYMENT := 0x1_0000_0000_0000_0000

  predicate Valid(a: Allocation) {
    && |a.deed| == 32 && |a.commitment| == 32
    && 0 < a.sharePpm <= Settlement.SHARE_PPM_DENOMINATOR
    && 0 < a.payment < MAX_PAYMENT
  }

  method ValidateAllocation(a: Allocation) returns (ok: bool)
    ensures ok <==> Valid(a)
  {
    if |a.deed| != 32 || |a.commitment| != 32 {
      return false;
    }
    if !(0 < a.sharePpm <= 1_000_000) {
      return false;
    }
    return 0 < a.payment < 0x1_0000_0000_0000_0000;
  }

  function ByDeed(): (Allocation, Allocation) -> bool {
    (a: Allocation, b: Allocation) => Less(a.deed, b.deed)
  }

  function Deed(): Allocation -> Bytes { (a: Allocation) => a.deed }
  function Commitment(): Allocation -> Bytes { (a: Allocation) => a.commitment }
  function SharePpm(): Allocation -> int { (a: Allocation) => a.sharePpm }
  function Payment(): Allocation -> int { (a: Allocation) => a.payment }

  /** No two elements agree under `f`. */
  predicate UniqueBy<T(==), U(==)>(f: T -> U, s: seq<T>) {
    forall i, j :: 0 <= i < j < |s| ==> f(s[i]) != f(s[j])
  }

  predicate Acceptable(s: seq<Allocation>) {
    && s != []
    && (forall a :: a in s ==> Valid(a))
    && UniqueBy(Deed(), s)
    && UniqueBy(Commitment(), s)
    && SumOf(SharePpm(), s) == Settlement.SHARE_PPM_DENOMINATOR
  }

  // ---------------------------------------------------------------- order does not matter

  lemma {:induction false} UniqueInAnyOrder<T, U>(f: T -> U, s: seq<T>, t: seq<T>)
    requires multiset(s) == multiset(t) && UniqueBy(f, s)
    ensures UniqueBy(f, t)
  {
    assert |multiset(s)| == |multiset(t)|;
    forall i, j | 0 <= i < j < |t|
      ensures f(t[i]) != f(t[j])
    {
      if f(t[i]) == f(t[j]) {
        assert t[i] in multiset(s) && t[j] in multiset(s);
        var k :| 0 <= k < |s| && s[k] == t[i];
        var l :| 0 <= l < |s| && s[l] == t[j];
        assert k == l;
        TwiceInSequence(t, i, j);
        OnceInUnique(f, s, k);
      }
    }
  }

  lemma TwiceInSequence<T>(t: seq<T>, i: nat, j: nat)
    requires i < j < |t| && t[i] == t[j]
    ensures multiset(t)[t[i]] >= 2
  {
    assert t == t[..j] + t[j..];
    assert t[..j][i] == t[i] && t[j..][0] == t[j];
    assert t[i] in multiset(t[..j]) && t[j] in multiset(t[j..]);
  }

  lemma OnceInUnique<T, U>(f: T -> U, s: seq<T>, k: nat)
    requires UniqueBy(f, s) && k < |s|
    ensures multiset(s)[s[k]] == 1
  {
    var x, before, after := s[k], s[..k], s[k + 1..];
    assert s == before + [x] + after;
    assert x !in before && x !in after;
    assert multiset(before)[x] == 0 && multiset(after)[x] == 0;
  }

  lemma AcceptableInAnyOrder(s: seq<Allocation>, t: seq<Allocation>)
    requires multiset(s) == multiset(t) && Acceptable(s)
    ensures Acceptable(t)
  {
    hide Valid, UniqueBy, SumOf;
    UniqueInAnyOrder(Deed(), s, t);
    UniqueInAnyOrder(Commitment(), s, t);
    SumOfPermutation(SharePpm(), s, t);
    assert |multiset(s)| == |s| && |multiset(t)| == |t|;
    assert forall a :: a in t ==> a in multiset(s);
  }

  lemma DeedsOrder(s: seq<Allocation>)
    requires UniqueBy(Deed(), s)
    ensures Orders(ByDeed(), s)
  {
    hide Less;
    forall x, y, z | x in s && y in s && z in s && ByDeed()(x, y) && ByDeed()(y, z)
      ensures ByDeed()(x, z)
    {
      LessIsTransitive(x.deed, y.deed, z.deed);
    }
    forall i, j | 0 <= i < |s| && 0 <= j < |s| && i != j
      ensures ByDeed()(s[i], s[j]) <==> !ByDeed()(s[j], s[i])
    {
      assert Deed()(s[i]) != Deed()(s[j]);
      LessIsTotal(s[i].deed, s[j].deed);
    }
  }

  /** `c` is the strictly increasing arrangement of `s`. */
  predicate CanonicalOf(s: seq<Allocation>, c: seq<Allocation>) {
    multiset(c) == multiset(s) && Increasing(ByDeed(), c)
  }

  lemma CanonicalIsUnique(s: seq<Allocation>, c: seq<Allocation>, d: seq<Allocation>)
    requires CanonicalOf(s, c) && CanonicalOf(s, d)
    ensures c == d
  {
    hide Less;
    forall x, y | Less(x, y)
      ensures !Less(y, x)
    {
      LessIsTotal(x, y);
    }
    IncreasingIsUnique(ByDeed(), c, d);
  }

  /** Accepts in any order what is valid, unique and a million in all, and puts it in its one increasing order. */
  method CanonicalAllocations(s: seq<Allocation>) returns (r: Result<seq<Allocation>>)
    ensures r.Ok? <==> Acceptable(s)
    ensures r.Ok? ==> CanonicalOf(s, r.value) && Acceptable(r.value)
  {
    hide UniqueBy, Valid, SumOf, Increasing, SortBy, Orders;
    var normalized := SortBy(ByDeed(), s);
    SortPermutes(ByDeed(), s);
    if Acceptable(s) {
      AcceptableInAnyOrder(s, normalized);
      DeedsOrder(s);
      SortIncreases(ByDeed(), s);
    }
    if Acceptable(normalized) {
      AcceptableInAnyOrder(normalized, s);
    }
    if normalized == [] {
      return Err("redemption requires at least one SmartDeed");
    }
    for i := 0 to |normalized|
      invariant forall j :: 0 <= j < i ==> Valid(normalized[j])
    {
      var valid := ValidateAllocation(normalized[i]);
      if !valid {
        assert normalized[i] in normalized;
        return Err("allocation is not valid");
      }
    }
    if !UniqueBy(Deed(), normalized) {
      return Err("redemption deed launcher IDs must be unique");
    }
    if !UniqueBy(Commitment(), normalized) {
      return Err("redemption deed commitments must be unique");
    }
    if SumOf(SharePpm(), normalized) != Settlement.SHARE_PPM_DENOMINATOR {
      return Err("redemption shares must total exactly 1,000,000 ppm");
    }
    return Ok(normalized);
  }

  // ---------------------------------------------------------------- the root

  function AllocationFields(a: Allocation): seq<Tree> {
    [Atom(a.deed), Atom(a.commitment), IntTree(a.sharePpm), IntTree(a.payment)]
  }

  function AllocationTrees(s: seq<Allocation>): seq<Tree> {
    seq(|s|, i requires 0 <= i < |s| => ListOf(AllocationFields(s[i])))
  }

  function AllocationsRoot(s: seq<Allocation>): Bytes32 {
    TreeHash(ListOf(AllocationTrees(SortBy(ByDeed(), s))))
  }

  lemma FieldsInjective(a: Allocation, b: Allocation)
    requires ListOf(AllocationFields(a)) == ListOf(AllocationFields(b))
    ensures a == b
  {
    hide IntToAtom, ListOf, Items;
    var x, y := AllocationFields(a), AllocationFields(b);
    ItemsOfList(x);
    ItemsOfList(y);
    assert x[0] == y[0] && x[1] == y[1] && x[2] == y[2] && x[3] == y[3];
    IntTreeInjective(a.sharePpm, b.sharePpm);
    IntTreeInjective(a.payment, b.payment);
  }

  lemma TreesInjective(s: seq<Allocation>, t: seq<Allocation>)
    requires AllocationTrees(s) == AllocationTrees(t)
    ensures s == t
  {
    hide AllocationFields, ListOf;
    assert |AllocationTrees(s)| == |AllocationTrees(t)|;
    forall i | 0 <= i < |s|
      ensures s[i] == t[i]
    {
      assert AllocationTrees(s)[i] == AllocationTrees(t)[i];
      FieldsInjective(s[i], t[i]);
    }
  }

  /** The root is the same for every order of the input, and only for those inputs, or there is a collision. */
  lemma RootIgnoresOrderOnly(s: seq<Allocation>, t: seq<Allocation>)
    requires Acceptable(s) && Acceptable(t)
    ensures multiset(s) == multiset(t) ==> AllocationsRoot(s) == AllocationsRoot(t)
    ensures AllocationsRoot(s) == AllocationsRoot(t) ==>
              || multiset(s) == multiset(t)
              || Collision(ListOf(AllocationTrees(SortBy(ByDeed(), s))), ListOf(AllocationTrees(SortBy(ByDeed(), t))))
  {
    hide SortBy, TreeHash, ListOf, AllocationTrees, Collision, Increasing, UniqueBy, Orders, SumOf, Valid;
    var c, d := SortBy(ByDeed(), s), SortBy(ByDeed(), t);
    SortPermutes(ByDeed(), s);
    SortPermutes(ByDeed(), t);
    DeedsOrder(s);
    DeedsOrder(t);
    SortIncreases(ByDeed(), s);
    SortIncreases(ByDeed(), t);
    if multiset(s) == multiset(t) {
      CanonicalIsUnique(s, c, d);
    }
    if AllocationsRoot(s) == AllocationsRoot(t) {
      FieldsBind(AllocationTrees(c), AllocationTrees(d));
      if AllocationTrees(c) == AllocationTrees(d) {
        TreesInjective(c, d);
      }
    }
  }

  // ---------------------------------------------------------------- plans

  datatype Plan = Plan(collection: Bytes, settlement: Bytes, asset: Bytes, total: int, allocations: seq<Allocation>)

  predicate ValidPlan(p: Plan) {
    && |p.collection| == |p.settlement| == |p.asset| == 32
    && 0 < p.total < MAX_PAYMENT
    && Acceptable(p.allocations)
    && SumOf(Payment(), p.allocations) == p.total
  }

  method ValidatePlan(p: Plan) returns (ok: bool)
    ensures ok <==> ValidPlan(p)
  {
    hide Acceptable, SumOf;
    if |p.collection| != 32 || |p.settlement| != 32 || |p.asset| != 32 || !(0 < p.total < MAX_PAYMENT) {
      return false;
    }
    var normalized := CanonicalAllocations(p.allocations);
    if normalized.Err? {
      return false;
    }
    SumOfPermutation(Payment(), normalized.value, p.allocations);
    return SumOf(Payment(), normalized.value) == p.total;
  }

  /** The settlement's view of an allocation. */
  function Settling(a: Allocation): Settlement.Payment {
    Settlement.Payment(a.deed, a.sharePpm, a.payment)
  }

  function SettlingAll(s: seq<Allocation>): seq<Settlement.Payment> {
    seq(|s|, i requires 0 <= i < |s| => Settling(s[i]))
  }

  function Allocate(ps: seq<Settlement.Payment>, commitments: map<Bytes, Bytes>): seq<Allocation>
    requires forall p :: p in ps ==> p.id in commitments
  {
    seq(|ps|, i requires 0 <= i < |ps| => AllocationOf(ps[i], commitments))
  }

  function AllocationOf(p: Settlement.Payment, commitments: map<Bytes, Bytes>): Allocation
    requires p.id in commitments
  {
    Allocation(p.id, commitments[p.id], p.ppm, p.amount)
  }

  predicate Covers(shares: seq<Settlement.Share>, commitments: map<Bytes, Bytes>) {
    && (forall s :: s in shares ==> s.id in commitments)
    && (forall id :: id in commitments ==> id in Settlement.Ids(shares))
  }

  /**
   The allocations stand in increasing order of deeds, are the settlement of the shares, and carry the commitments.
   */
  predicate Pays(total: int, shares: seq<Settlement.Share>, commitments: map<Bytes, Bytes>, c: seq<Allocation>) {
    && Increasing(ByDeed(), c)
    && Settlement.Settled(total, SettlingAll(c))
    && multiset(Settlement.SharesOf(SettlingAll(c))) == multiset(shares)
    && (forall a :: a in c ==> a.deed in commitments && a.commitment == commitments[a.deed])
  }

  predicate IsSettlement(total: int, shares: seq<Settlement.Share>, ps: seq<Settlement.Payment>) {
    Settlement.SharesOf(ps) == shares && Settlement.Settled(total, ps)
  }

  /** Which settlements can be funded: payable deeds, distinct commitments, and something for everyone. */
  predicate Payable(total: int, shares: seq<Settlement.Share>, commitments: map<Bytes, Bytes>)
    requires Covers(shares, commitments)
  {
    && total < MAX_PAYMENT
    && (forall s :: s in shares ==> |s.id| == 32 && |commitments[s.id]| == 32)
    && (forall i, j :: 0 <= i < j < |shares| ==> commitments[shares[i].id] != commitments[shares[j].id])
    && (forall s :: s in shares ==> Settlement.GetsSomething(total, shares, s))
  }

  predicate AllPaid(ps: seq<Settlement.Payment>) {
    forall p :: p in ps ==> p.amount > 0
  }

  lemma {:induction false} ElementBelowSum<T>(f: T -> int, s: seq<T>, k: nat)
    requires k < |s| && forall x :: x in s ==> f(x) >= 0
    ensures 0 <= f(s[k]) <= SumOf(f, s)
  {
    SumIsNotNegative(f, s[1..]);
    if k > 0 {
      ElementBelowSum(f, s[1..], k - 1);
    }
  }

  lemma {:induction false} SumIsNotNegative<T>(f: T -> int, s: seq<T>)
    requires forall x :: x in s ==> f(x) >= 0
    ensures SumOf(f, s) >= 0
  {
    if s != [] {
      SumIsNotNegative(f, s[1..]);
    }
  }

  lemma {:induction false} AllocateSums(ps: seq<Settlement.Payment>, commitments: map<Bytes, Bytes>)
    requires forall p :: p in ps ==> p.id in commitments
    ensures SumOf(SharePpm(), Allocate(ps, commitments)) == SumOf(Settlement.Ppm(), Settlement.SharesOf(ps))
    ensures SumOf(Payment(), Allocate(ps, commitments)) == SumOf(Settlement.Amount(), ps)
  {
    if ps != [] {
      AllocateSums(ps[1..], commitments);
      assert Allocate(ps, commitments)[1..] == Allocate(ps[1..], commitments);
      assert Settlement.SharesOf(ps)[1..] == Settlement.SharesOf(ps[1..]);
    }
  }

  lemma AllocateUnique(ps: seq<Settlement.Payment>, shares: seq<Settlement.Share>, commitments: map<Bytes, Bytes>)
    requires Settlement.SharesOf(ps) == shares && Distinct(Settlement.Ids(shares)) && Covers(shares, commitments)
    requires forall p :: p in ps ==> p.id in commitments
    ensures UniqueBy(Deed(), Allocate(ps, commitments))
    ensures UniqueBy(Commitment(), Allocate(ps, commitments)) <==>
              forall i, j :: 0 <= i < j < |shares| ==> commitments[shares[i].id] != commitments[shares[j].id]
  {
    var all := Allocate(ps, commitments);
    assert |ps| == |shares| && forall i :: 0 <= i < |ps| ==>
        shares[i] == Settlement.ShareOf(ps[i]) && shares[i] in shares;
    forall i, j | 0 <= i < j < |all|
      ensures Deed()(all[i]) != Deed()(all[j])
    {
      assert Settlement.Ids(shares)[i] != Settlement.Ids(shares)[j];
    }
    assert forall i :: 0 <= i < |all| ==> Commitment()(all[i]) == commitments[shares[i].id];
  }

  /** With the settlement in hand, what remains to be checked is whether it is payable. */
  lemma AcceptableIffPayable(total: int, shares: seq<Settlement.Share>, commitments: map<Bytes, Bytes>,
                             ps: seq<Settlement.Payment>)
    requires Settlement.AcceptsShares(total, shares) && Covers(shares, commitments)
    requires IsSettlement(total, shares, ps) && forall p :: p in ps ==> p.id in commitments
    ensures total < MAX_PAYMENT && Acceptable(Allocate(ps, commitments)) <==> Payable(total, shares, commitments)
  {
    hide Settlement.Base, Settlement.Before, SumOf, UniqueBy, Settlement.RoundedUp, Distinct, Settlement.GetsSomething;
    var all := Allocate(ps, commitments);
    AllocateUnique(ps, shares, commitments);
    AllocateSums(ps, commitments);
    ValidIffPayable(total, shares, commitments, ps);
    Settlement.PaidIff(total, shares, ps);
  }

  lemma ValidIffPayable(total: int, shares: seq<Settlement.Share>, commitments: map<Bytes, Bytes>,
                        ps: seq<Settlement.Payment>)
    requires Settlement.AcceptsShares(total, shares) && Covers(shares, commitments)
    requires IsSettlement(total, shares, ps) && forall p :: p in ps ==> p.id in commitments
    ensures total < MAX_PAYMENT ==>
      ((forall a :: a in Allocate(ps, commitments) ==> Valid(a)) <==>
       (forall s :: s in shares ==> |s.id| == 32 && |commitments[s.id]| == 32) && AllPaid(ps))
  {
    hide Settlement.Base, Settlement.Before, SumOf, Settlement.RoundedUp, Distinct, Settlement.Settled, Settlement.Ids;
    var all := Allocate(ps, commitments);
    assert |all| == |ps| == |shares|;
    assert SumOf(Settlement.Amount(), ps) == total by { SettledTotal(total, ps); }
    if total < MAX_PAYMENT {
      forall i | 0 <= i < |ps|
        ensures Valid(all[i]) <==> |shares[i].id| == 32 && |commitments[shares[i].id]| == 32 && ps[i].amount > 0
      {
        assert shares[i] == Settlement.ShareOf(ps[i]) && shares[i] in shares;
        ElementBelowSum(Settlement.Ppm(), shares, i);
        if forall p :: p in ps ==> p.amount >= 0 {
          ElementBelowSum(Settlement.Amount(), ps, i);
        }
        SettledIsNotNegative(total, shares, ps);
      }
      assert forall i :: 0 <= i < |ps| ==> ps[i] in ps && shares[i] in shares && all[i] in all;
    }
  }

  lemma SettledTotal(total: int, ps: seq<Settlement.Payment>)
    requires Settlement.Settled(total, ps)
    ensures SumOf(Settlement.Amount(), ps) == total
  {
  }

  lemma SettledIsNotNegative(total: int, shares: seq<Settlement.Share>, ps: seq<Settlement.Payment>)
    requires Settlement.AcceptsShares(total, shares) && IsSettlement(total, shares, ps)
    ensures forall p :: p in ps ==> p.amount >= 0
  {
    hide SumOf, Settlement.Before, Distinct, Settlement.Ids;
    forall i | 0 <= i < |ps|
      ensures ps[i].amount >= 0
    {
      assert shares[i] == Settlement.ShareOf(ps[i]) && shares[i] in shares && ps[i] in ps;
      BaseIsNotNegative(total, shares[i]);
    }
  }

  lemma BaseIsNotNegative(total: int, s: Settlement.Share)
    requires total > 0 && s.ppm > 0
    ensures Settlement.Base(total, s) >= 0
  {
  }

  /** Builds the plan that settles the total over the shares, whatever order the shares are given in. */
  method BuildPlan(collection: Bytes, settlement: Bytes, asset: Bytes, total: int,
                   shares: seq<Settlement.Share>, commitments: map<Bytes, Bytes>) returns (r: Result<Plan>)
    ensures r.Ok? <==>
              && |collection| == |settlement| == |asset| == 32
              && Settlement.AcceptsShares(total, shares)
              && Covers(shares, commitments) && Payable(total, shares, commitments)
    ensures r.Ok? ==>
              && (r.value.collection, r.value.settlement, r.value.asset, r.value.total)
              == (collection, settlement, asset, total)
              && ValidPlan(r.value)
              && Pays(total, shares, commitments, r.value.allocations)
  {
    hide Acceptable, SumOf, Payable, Settlement.AcceptsShares, Settlement.Settled, Increasing, Pays;
    CoversMeans(shares, commitments);
    if (set s | s in shares :: s.id) != commitments.Keys {
      return Err("deed shares and commitments must cover the same deeds");
    }
    var settled := Settlement.AllocateSettlement(total, shares);
    if settled.Err? {
      return Err(settled.reason);
    }
    var ps := settled.value;
    AllCovered(shares, commitments, ps);
    AcceptableIffPayable(total, shares, commitments, ps);
    AllocateSums(ps, commitments);
    SettledTotal(total, ps);
    var canonical := CanonicalAllocations(Allocate(ps, commitments));
    if canonical.Err? {
      return Err(canonical.reason);
    }
    SumOfPermutation(Payment(), canonical.value, Allocate(ps, commitments));
    var plan := Plan(collection, settlement, asset, total, canonical.value);
    var valid := ValidatePlan(plan);
    if !valid {
      PositiveTotal(total, shares);
      return Err("redemption plan is not valid");
    }
    CanonicalPays(total, shares, commitments, ps, canonical.value);
    return Ok(plan);
  }

  lemma CoversMeans(shares: seq<Settlement.Share>, commitments: map<Bytes, Bytes>)
    ensures Covers(shares, commitments) <==> (set s | s in shares :: s.id) == commitments.Keys
  {
    forall i | 0 <= i < |shares|
      ensures Settlement.Ids(shares)[i] == shares[i].id && shares[i] in shares
    {
    }
    if Covers(shares, commitments) {
      forall id | id in commitments
        ensures id in set s | s in shares :: s.id
      {
        var i :| 0 <= i < |shares| && Settlement.Ids(shares)[i] == id;
      }
    }
    if (set s | s in shares :: s.id) == commitments.Keys {
      forall id | id in commitments
        ensures id in Settlement.Ids(shares)
      {
        var s :| s in shares && s.id == id;
        var i :| 0 <= i < |shares| && shares[i] == s;
        assert Settlement.Ids(shares)[i] == id;
      }
    }
  }

  lemma PositiveTotal(total: int, shares: seq<Settlement.Share>)
    requires Settlement.AcceptsShares(total, shares)
    ensures total > 0
  {
  }

  lemma AllCovered(shares: seq<Settlement.Share>, commitments: map<Bytes, Bytes>, ps: seq<Settlement.Payment>)
    requires Covers(shares, commitments) && Settlement.SharesOf(ps) == shares
    ensures forall p :: p in ps ==> p.id in commitments
  {
    forall i | 0 <= i < |ps|
      ensures ps[i].id in commitments
    {
      assert shares[i] == Settlement.ShareOf(ps[i]) && shares[i] in shares;
    }
  }

  lemma SettlingOfAllocate(ps: seq<Settlement.Payment>, commitments: map<Bytes, Bytes>)
    requires forall p :: p in ps ==> p.id in commitments
    ensures Map(Settling, Allocate(ps, commitments)) == ps
  {
    var m := Map(Settling, Allocate(ps, commitments));
    forall i | 0 <= i < |ps|
      ensures m[i] == ps[i]
    {
      assert m[i] == Settling(AllocationOf(ps[i], commitments));
    }
  }

  lemma CanonicalPays(total: int, shares: seq<Settlement.Share>, commitments: map<Bytes, Bytes>,
                      ps: seq<Settlement.Payment>, c: seq<Allocation>)
    requires IsSettlement(total, shares, ps) && forall p :: p in ps ==> p.id in commitments
    requires CanonicalOf(Allocate(ps, commitments), c)
    ensures Pays(total, shares, commitments, c)
  {
    hide Settlement.Settled, Increasing;
    var all := Allocate(ps, commitments);
    MapPermutes(Settling, c, all);
    assert Map(Settling, c) == SettlingAll(c);
    SettlingOfAllocate(ps, commitments);
    Settlement.SettledInAnyOrder(total, ps, SettlingAll(c));
    MapPermutes(Settlement.ShareOf, SettlingAll(c), ps);
    assert Map(Settlement.ShareOf, SettlingAll(c)) == Settlement.SharesOf(SettlingAll(c));
    assert Map(Settlement.ShareOf, ps) == Settlement.SharesOf(ps);
    forall a | a in c
      ensures a.deed in commitments && a.commitment == commitments[a.deed]
    {
      assert a in multiset(all);
    }
  }

  function ById(): (Settlement.Share, Settlement.Share) -> bool {
    (s: Settlement.Share, t: Settlement.Share) => Less(s.id, t.id)
  }

  /** The same shares in another order are paid by the same allocations. */
  lemma PlanIgnoresShareOrder(total: int, shares: seq<Settlement.Share>, shares': seq<Settlement.Share>,
                              commitments: map<Bytes, Bytes>, c: seq<Allocation>, d: seq<Allocation>)
    requires multiset(shares) == multiset(shares')
    requires Pays(total, shares, commitments, c) && Pays(total, shares', commitments, d)
    ensures c == d
  {
    hide Settlement.Settled, Less;
    var p, q := SettlingAll(c), SettlingAll(d);
    var s, t := Settlement.SharesOf(p), Settlement.SharesOf(q);
    assert Increasing(ById(), s) && Increasing(ById(), t) by {
      SharesIncrease(c);
      SharesIncrease(d);
    }
    forall x, y | Less(x, y)
      ensures !Less(y, x)
    {
      LessIsTotal(x, y);
    }
    IncreasingIsUnique(ById(), s, t);
    Settlement.SettlementIsUnique(total, p, q);
    assert |c| == |p| == |d|;
    forall i | 0 <= i < |c|
      ensures c[i] == d[i]
    {
      assert p[i] == Settling(c[i]) && q[i] == Settling(d[i]) && c[i] in c && d[i] in d;
    }
  }

  lemma SharesIncrease(c: seq<Allocation>)
    requires Increasing(ByDeed(), c)
    ensures Increasing(ById(), Settlement.SharesOf(SettlingAll(c)))
  {
    hide Less;
    forall i, j | 0 <= i < j < |c|
      ensures Less(c[i].deed, c[j].deed)
    {
      assert ByDeed()(c[i], c[j]);
    }
  }

  /** Where every exact share is worth a unit, everyone is paid. */
  lemma LargeTotalsPayEveryone(total: int, shares: seq<Settlement.Share>, ps: seq<Settlement.Payment>)
    requires IsSettlement(total, shares, ps)
    requires forall s :: s in shares ==> total * s.ppm >= Settlement.SHARE_PPM_DENOMINATOR
    ensures AllPaid(ps)
  {
    hide SumOf, Settlement.Before;
    forall i | 0 <= i < |ps|
      ensures ps[i].amount > 0
    {
      assert shares[i] == Settlement.ShareOf(ps[i]) && shares[i] in shares && ps[i] in ps;
      BaseIsPositive(total, shares[i]);
    }
  }

  lemma BaseIsPositive(total: int, s: Settlement.Share)
    requires total * s.ppm >= Settlement.SHARE_PPM_DENOMINATOR
    ensures Settlement.Base(total, s) > 0
  {
  }
}
