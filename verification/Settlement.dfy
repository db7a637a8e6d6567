/**
 Splits an exact amount over shares of a million, largest remainder first.
 */
module Settlement {
  import opened Hashing
  import opened Results
  import opened Sequences
  import opened Sorting

  const SHARE_PPM_DENOMINATOR := 1_000_000

  datatype Share = Share(id: Bytes, ppm: int)
  datatype Payment = Payment(id: Bytes, ppm: int, amount: int)

  function Ids(shares: seq<Share>): seq<Bytes> {
    seq(|shares|, i requires 0 <= i < |shares| => shares[i].id)
  }

  function ShareOf(p: Payment): Share {
    Share(p.id, p.ppm)
  }

  function SharesOf(ps: seq<Payment>): seq<Share> {
    seq(|ps|, i requires 0 <= i < |ps| => ShareOf(ps[i]))
  }

  function Ppm(): Share -> int { (s: Share) => s.ppm }
  function Amount(): Payment -> int { (p: Payment) => p.amount }

  predicate AcceptsShares(total: int, shares: seq<Share>) {
    && total > 0 && shares != []
    && (forall s :: s in shares ==> s.id != [] && s.ppm > 0)
    && Distinct(Ids(shares))
    && SumOf(Ppm(), shares) == SHARE_PPM_DENOMINATOR
  }

  /** The exact share rounded down, and what rounding cuts off. */
  function Base(total: int, s: Share): int { total * s.ppm / SHARE_PPM_DENOMINATOR }
  function Remainder(total: int, s: Share): int { total * s.ppm % SHARE_PPM_DENOMINATOR }

  /** Larger remainders come first; the deed id breaks ties. */
  predicate Before(total: int, a: Share, b: Share) {
    Remainder(total, a) > Remainder(total, b) || (Remainder(total, a) == Remainder(total, b) && Less(a.id, b.id))
  }

  function ByRemainder(total: int): (Share, Share) -> bool {
    (a: Share, b: Share) => Before(total, a, b)
  }

  predicate RoundedUp(total: int, p: Payment) {
    p.amount == Base(total, ShareOf(p)) + 1
  }

  /** Nobody is off by a unit or more, everything is paid out, and rounding up follows the remainders. */
  predicate Settled(total: int, ps: seq<Payment>) {
    && (forall p :: p in ps ==> p.amount == Base(total, ShareOf(p)) || RoundedUp(total, p))
    && SumOf(Amount(), ps) == total
    && (forall p, q :: p in ps && q in ps && RoundedUp(total, p) && !RoundedUp(total, q) ==>
          Before(total, ShareOf(p), ShareOf(q)))
  }

  // ---------------------------------------------------------------- sums of shares

  function Bases(total: int): Share -> int { (s: Share) => Base(total, s) }
  function Remainders(total: int): Share -> int { (s: Share) => Remainder(total, s) }

  lemma {:induction false} SumOfParts(total: int, shares: seq<Share>)
    ensures total * SumOf(Ppm(), shares)
         == SHARE_PPM_DENOMINATOR * SumOf(Bases(total), shares) + SumOf(Remainders(total), shares)
    ensures 0 <= SumOf(Remainders(total), shares)
    ensures shares != [] ==> SumOf(Remainders(total), shares) < SHARE_PPM_DENOMINATOR * |shares|
  {
    if shares != [] {
      SumOfParts(total, shares[1..]);
      PartsOf(total, shares[0]);
      Distributes(total, shares[0].ppm, SumOf(Ppm(), shares[1..]));
    }
  }

  lemma PartsOf(total: int, s: Share)
    ensures total * s.ppm == SHARE_PPM_DENOMINATOR * Base(total, s) + Remainder(total, s)
    ensures 0 <= Remainder(total, s) < SHARE_PPM_DENOMINATOR
  {
  }

  lemma Distributes(k: int, a: int, b: int)
    ensures k * (a + b) == k * a + k * b
  {
  }

  /** What is left after rounding down is less than one unit a share. */
  lemma LeftoverIsSmall(total: int, shares: seq<Share>)
    requires AcceptsShares(total, shares)
    ensures 0 <= total - SumOf(Bases(total), shares) < |shares|
  {
    hide Ids, Distinct;
    SumOfParts(total, shares);
  }

  lemma RemaindersOrder(total: int, shares: seq<Share>)
    requires Distinct(Ids(shares))
    ensures Orders(ByRemainder(total), shares)
    ensures Distinct(shares)
  {
    hide Remainder, Less;
    var ids := Ids(shares);
    forall x, y, z | Before(total, x, y) && Before(total, y, z)
      ensures Before(total, x, z)
    {
      if Less(x.id, y.id) && Less(y.id, z.id) {
        LessIsTransitive(x.id, y.id, z.id);
      }
    }
    forall i, j | 0 <= i < |shares| && 0 <= j < |shares| && i != j
      ensures shares[i] != shares[j]
      ensures Before(total, shares[i], shares[j]) <==> !Before(total, shares[j], shares[i])
    {
      assert ids[i] == shares[i].id && ids[j] == shares[j].id && ids[i] != ids[j];
      LessIsTotal(shares[i].id, shares[j].id);
    }
  }

  // ---------------------------------------------------------------- the split

  /** One unit more for the shares in front. */
  function Amounts(total: int, front: seq<Share>): Share -> int {
    (s: Share) => Base(total, s) + if s in front then 1 else 0
  }

  lemma {:induction false} SumFront(total: int, front: seq<Share>, all: seq<Share>)
    requires forall s :: s in all ==> s in front
    ensures SumOf(Amounts(total, front), all) == SumOf(Bases(total), all) + |all|
  {
    hide Base;
    if all != [] {
      SumFront(total, front, all[1..]);
    }
  }

  lemma {:induction false} SumBack(total: int, front: seq<Share>, all: seq<Share>)
    requires forall s :: s in all ==> s !in front
    ensures SumOf(Amounts(total, front), all) == SumOf(Bases(total), all)
  {
    hide Base;
    if all != [] {
      SumBack(total, front, all[1..]);
    }
  }

  lemma SumRanked(total: int, ranked: seq<Share>, k: nat)
    requires k <= |ranked| && Distinct(ranked)
    ensures SumOf(Amounts(total, ranked[..k]), ranked) == SumOf(Bases(total), ranked) + k
  {
    hide Base;
    var front, back := ranked[..k], ranked[k..];
    assert ranked == front + back;
    DistinctSplits(front, back);
    SumFront(total, front, front);
    SumBack(total, front, back);
    SumOfSplits(Amounts(total, front), front, back);
    SumOfSplits(Bases(total), front, back);
  }

  function PaymentOf(f: Share -> int, s: Share): Payment {
    Payment(s.id, s.ppm, f(s))
  }

  function PaymentsOf(f: Share -> int, shares: seq<Share>): seq<Payment> {
    seq(|shares|, i requires 0 <= i < |shares| => PaymentOf(f, shares[i]))
  }

  lemma {:induction false} SumPayments(f: Share -> int, shares: seq<Share>)
    ensures SumOf(Amount(), PaymentsOf(f, shares)) == SumOf(f, shares)
  {
    if shares != [] {
      SumPayments(f, shares[1..]);
      assert PaymentsOf(f, shares)[1..] == PaymentsOf(f, shares[1..]);
    }
  }

  lemma NoPayments(f: Share -> int)
    ensures PaymentsOf(f, []) == []
  {
  }

  lemma PaymentsKeepShares(f: Share -> int, shares: seq<Share>)
    ensures SharesOf(PaymentsOf(f, shares)) == shares
  {
  }

  lemma PaymentsOfLast(f: Share -> int, shares: seq<Share>, i: nat)
    requires i < |shares|
    ensures PaymentsOf(f, shares[..i + 1]) == PaymentsOf(f, shares[..i]) + [PaymentOf(f, shares[i])]
  {
  }

  function Front(total: int, shares: seq<Share>): seq<Share>
    requires AcceptsShares(total, shares)
  {
    LeftoverIsSmall(total, shares);
    SortPermutes(ByRemainder(total), shares);
    SortBy(ByRemainder(total), shares)[..total - SumOf(Bases(total), shares)]
  }

  /** The units left over pay out the total. */
  lemma FrontTotals(total: int, shares: seq<Share>)
    requires AcceptsShares(total, shares)
    ensures SumOf(Amount(), PaymentsOf(Amounts(total, Front(total, shares)), shares)) == total
  {
    hide Base, Before, Orders, Increasing, Distinct, Ids, SortBy, SumOf;
    var ranked := SortBy(ByRemainder(total), shares);
    var f, k := Amounts(total, Front(total, shares)), total - SumOf(Bases(total), shares);
    LeftoverIsSmall(total, shares);
    SortPermutes(ByRemainder(total), shares);
    RemaindersOrder(total, shares);
    SortIncreases(ByRemainder(total), shares);
    RankedDistinct(total, shares, ranked);
    SumRanked(total, ranked, k);
    SumOfPermutation(f, shares, ranked);
    SumOfPermutation(Bases(total), shares, ranked);
    SumPayments(f, shares);
  }

  /** The shares in front come before the others. */
  lemma FrontOrders(total: int, shares: seq<Share>, s: Share, t: Share)
    requires AcceptsShares(total, shares) && s in shares && t in shares
    requires s in Front(total, shares) && t !in Front(total, shares)
    ensures Before(total, s, t)
  {
    hide Base, Before, Orders, Increasing, Distinct, Ids, SortBy, SumOf;
    var ranked := SortBy(ByRemainder(total), shares);
    LeftoverIsSmall(total, shares);
    SortPermutes(ByRemainder(total), shares);
    RemaindersOrder(total, shares);
    SortIncreases(ByRemainder(total), shares);
    assert t in multiset(ranked);
    FrontIsBefore(total, ranked, total - SumOf(Bases(total), shares), s, t);
  }

  /** Rounding up the shares in front of the ranking settles the total. */
  lemma FrontSettles(total: int, shares: seq<Share>)
    requires AcceptsShares(total, shares)
    ensures Settled(total, PaymentsOf(Amounts(total, Front(total, shares)), shares))
  {
    hide AcceptsShares, Front, Base, Before, SumOf;
    var f := Amounts(total, Front(total, shares));
    var ps := PaymentsOf(f, shares);
    FrontTotals(total, shares);
    forall p | p in ps
      ensures ShareOf(p) in shares && p.amount == f(ShareOf(p))
    {
    }
    forall p, q | p in ps && q in ps && RoundedUp(total, p) && !RoundedUp(total, q)
      ensures Before(total, ShareOf(p), ShareOf(q))
    {
      FrontOrders(total, shares, ShareOf(p), ShareOf(q));
    }
  }

  lemma RankedDistinct(total: int, shares: seq<Share>, ranked: seq<Share>)
    requires Increasing(ByRemainder(total), ranked)
    ensures Distinct(ranked)
  {
    hide Remainder, Less;
    forall i, j | 0 <= i < j < |ranked|
      ensures ranked[i] != ranked[j]
    {
      assert Before(total, ranked[i], ranked[j]);
      LessIsTotal(ranked[i].id, ranked[i].id);
    }
  }

  lemma FrontIsBefore(total: int, ranked: seq<Share>, k: nat, s: Share, t: Share)
    requires k <= |ranked| && Increasing(ByRemainder(total), ranked)
    requires s in ranked[..k] && t in ranked && t !in ranked[..k]
    ensures Before(total, s, t)
  {
    hide Before;
    assert forall m :: 0 <= m < k ==> ranked[m] in ranked[..k];
    var i :| 0 <= i < k && ranked[i] == s;
    var j :| 0 <= j < |ranked| && ranked[j] == t;
    assert ByRemainder(total)(ranked[i], ranked[j]);
  }

  /** Settles an exact total, or refuses shares that are empty, repeated, not positive, or not a million in all. */
  method AllocateSettlement(total: int, shares: seq<Share>) returns (r: Result<seq<Payment>>)
    ensures r.Ok? <==> AcceptsShares(total, shares)
    ensures r.Ok? ==> SharesOf(r.value) == shares && Settled(total, r.value)
  {
    hide Settled, Distinct, SortBy, Base, Before, SumOf, PaymentsOf;
    if total <= 0 {
      return Err("total_micro_usd must be positive");
    }
    if shares == [] {
      return Err("settlement must contain at least one deed");
    }
    if exists s :: s in shares && s.id == [] {
      return Err("deed_id must not be empty");
    }
    if !Distinct(Ids(shares)) {
      return Err("settlement deed ids must be unique");
    }
    if exists s :: s in shares && s.ppm <= 0 {
      return Err("share_ppm must be positive");
    }
    if SumOf(Ppm(), shares) != SHARE_PPM_DENOMINATOR {
      return Err("settlement shares must total exactly 1_000_000 ppm");
    }
    var paid := 0;
    SumOfNothing(Bases(total));
    assert shares[..0] == [];
    for i := 0 to |shares|
      invariant paid == SumOf(Bases(total), shares[..i])
    {
      SumOfLast(Bases(total), shares, i);
      paid := paid + Base(total, shares[i]);
    }
    assert shares[..|shares|] == shares;
    LeftoverIsSmall(total, shares);
    SortPermutes(ByRemainder(total), shares);
    var front := SortBy(ByRemainder(total), shares)[..total - paid];
    var payments: seq<Payment> := [];
    assert payments == PaymentsOf(Amounts(total, front), shares[..0]) by { NoPayments(Amounts(total, front)); }
    for i := 0 to |shares|
      invariant payments == PaymentsOf(Amounts(total, front), shares[..i])
    {
      var amount := Base(total, shares[i]);
      if shares[i] in front {
        amount := amount + 1;
      }
      PaymentsOfLast(Amounts(total, front), shares, i);
      payments := payments + [Payment(shares[i].id, shares[i].ppm, amount)];
    }
    PaymentsKeepShares(Amounts(total, front), shares);
    assert shares[..|shares|] == shares;
    FrontSettles(total, shares);
    assert front == Front(total, shares);
    return Ok(payments);
  }

  // ---------------------------------------------------------------- uniqueness

  lemma {:induction false} SumOrders(a: seq<Payment>, b: seq<Payment>)
    requires |a| == |b| && forall i :: 0 <= i < |a| ==> a[i].amount <= b[i].amount
    ensures SumOf(Amount(), a) <= SumOf(Amount(), b)
    ensures SumOf(Amount(), a) == SumOf(Amount(), b) ==> forall i :: 0 <= i < |a| ==> a[i].amount == b[i].amount
  {
    if a != [] {
      SumOrders(a[1..], b[1..]);
      assert forall i :: 1 <= i < |a| ==> a[i] == a[1..][i - 1] && b[i] == b[1..][i - 1];
    }
  }

  lemma SomeoneGainsSomeoneLoses(a: seq<Payment>, b: seq<Payment>, k: nat)
    requires |a| == |b| && SumOf(Amount(), a) == SumOf(Amount(), b)
    requires k < |a| && a[k].amount != b[k].amount
    ensures exists i :: 0 <= i < |a| && a[i].amount < b[i].amount
    ensures exists j :: 0 <= j < |a| && b[j].amount < a[j].amount
  {
    if forall i :: 0 <= i < |a| ==> a[i].amount <= b[i].amount {
      SumOrders(a, b);
    }
    if forall i :: 0 <= i < |a| ==> b[i].amount <= a[i].amount {
      SumOrders(b, a);
    }
  }

  /** A settlement cannot turn into another by one share gaining what another loses. */
  lemma NoTrade(total: int, a: seq<Payment>, b: seq<Payment>, i: nat, j: nat)
    requires Settled(total, a) && Settled(total, b) && i < |a| == |b| && j < |a|
    requires ShareOf(a[i]) == ShareOf(b[i]) && ShareOf(a[j]) == ShareOf(b[j])
    ensures !(a[i].amount < b[i].amount && b[j].amount < a[j].amount)
  {
    hide Base, Before, SumOf;
    assert a[i] in a && a[j] in a && b[i] in b && b[j] in b;
    BeforeIsAsymmetric(total, ShareOf(a[i]), ShareOf(a[j]));
  }

  /** The rules leave one settlement. */
  lemma SettlementIsUnique(total: int, a: seq<Payment>, b: seq<Payment>)
    requires SharesOf(a) == SharesOf(b) && Settled(total, a) && Settled(total, b)
    ensures a == b
  {
    hide Base, Before, RoundedUp;
    assert |SharesOf(a)| == |SharesOf(b)|;
    assert forall i :: 0 <= i < |a| ==> SharesOf(a)[i] == ShareOf(a[i]) && SharesOf(b)[i] == ShareOf(b[i]);
    if a != b {
      var k :| 0 <= k < |a| && a[k] != b[k];
      SomeoneGainsSomeoneLoses(a, b, k);
      var i :| 0 <= i < |a| && a[i].amount < b[i].amount;
      var j :| 0 <= j < |a| && b[j].amount < a[j].amount;
      assert ShareOf(a[i]) == ShareOf(b[i]) && ShareOf(a[j]) == ShareOf(b[j]);
      NoTrade(total, a, b, i, j);
    }
  }

  lemma BeforeIsAsymmetric(total: int, s: Share, t: Share)
    ensures !(Before(total, s, t) && Before(total, t, s))
  {
    LessIsTotal(s.id, t.id);
  }

  /** A reordered settlement is a settlement. */
  lemma SettledInAnyOrder(total: int, a: seq<Payment>, b: seq<Payment>)
    requires multiset(a) == multiset(b) && Settled(total, a)
    ensures Settled(total, b)
  {
    hide Base, Before;
    SumOfPermutation(Amount(), a, b);
    assert forall p :: p in b ==> p in multiset(a);
  }

  // ---------------------------------------------------------------- who is rounded up

  /** What rounding down leaves over. */
  function Leftover(total: int, shares: seq<Share>): int {
    total - SumOf(Bases(total), shares)
  }

  function Precedes(total: int, s: Share): Share -> int {
    (t: Share) => if Before(total, t, s) then 1 else 0
  }

  /** How many shares are rounded up before this one. */
  function Rank(total: int, shares: seq<Share>, s: Share): int {
    SumOf(Precedes(total, s), shares)
  }

  /** The share is worth a unit, or is among those that get one of the units left over. */
  predicate GetsSomething(total: int, shares: seq<Share>, s: Share) {
    Base(total, s) > 0 || Rank(total, shares, s) < Leftover(total, shares)
  }

  lemma {:induction false} SumOfOnes(total: int, s: Share, ts: seq<Share>)
    requires forall t :: t in ts ==> Before(total, t, s)
    ensures SumOf(Precedes(total, s), ts) == |ts|
  {
    hide Before;
    if ts != [] {
      SumOfOnes(total, s, ts[1..]);
    }
  }

  lemma {:induction false} SumOfZeros(total: int, s: Share, ts: seq<Share>)
    requires forall t :: t in ts ==> !Before(total, t, s)
    ensures SumOf(Precedes(total, s), ts) == 0
  {
    hide Before;
    if ts != [] {
      SumOfZeros(total, s, ts[1..]);
    }
  }

  /** In the ranking a share's rank is its position. */
  lemma RankIsPosition(total: int, ranked: seq<Share>, i: nat)
    requires Increasing(ByRemainder(total), ranked) && i < |ranked|
    ensures Rank(total, ranked, ranked[i]) == i
  {
    hide Before;
    var s := ranked[i];
    assert ranked == ranked[..i] + ranked[i..];
    SumOfSplits(Precedes(total, s), ranked[..i], ranked[i..]);
    forall t | t in ranked[..i]
      ensures Before(total, t, s)
    {
      var j :| 0 <= j < i && ranked[j] == t;
      assert ByRemainder(total)(ranked[j], ranked[i]);
    }
    SumOfOnes(total, s, ranked[..i]);
    forall t | t in ranked[i..]
      ensures !Before(total, t, s)
    {
      var j :| i <= j < |ranked| && ranked[j] == t;
      assert i < j ==> ByRemainder(total)(ranked[i], ranked[j]);
      BeforeIsAsymmetric(total, s, t);
    }
    SumOfZeros(total, s, ranked[i..]);
  }

  /** The shares in front are those whose rank is less than what is left over. */
  lemma FrontIffRank(total: int, shares: seq<Share>, s: Share)
    requires AcceptsShares(total, shares) && s in shares
    ensures s in Front(total, shares) <==> Rank(total, shares, s) < Leftover(total, shares)
  {
    hide Before, Orders, SortBy, Distinct, Ids, Base, Increasing;
    var ranked := SortBy(ByRemainder(total), shares);
    LeftoverIsSmall(total, shares);
    SortPermutes(ByRemainder(total), shares);
    RemaindersOrder(total, shares);
    SortIncreases(ByRemainder(total), shares);
    RankedDistinct(total, shares, ranked);
    SumOfPermutation(Precedes(total, s), shares, ranked);
    var i :| 0 <= i < |ranked| && ranked[i] == s;
    RankIsPosition(total, ranked, i);
    PositionInFront(ranked, Leftover(total, shares), i);
  }

  lemma PositionInFront(ranked: seq<Share>, k: nat, i: nat)
    requires Distinct(ranked) && k <= |ranked| && i < |ranked|
    ensures ranked[i] in ranked[..k] <==> i < k
  {
    assert i < k ==> ranked[..k][i] == ranked[i];
  }

  /** Everyone is paid exactly when every share gets something. */
  lemma PaidIff(total: int, shares: seq<Share>, ps: seq<Payment>)
    requires AcceptsShares(total, shares) && SharesOf(ps) == shares && Settled(total, ps)
    ensures (forall p :: p in ps ==> p.amount > 0) <==> forall s :: s in shares ==> GetsSomething(total, shares, s)
  {
    hide Settled, Base, Before, Rank, Leftover, Distinct, Ids, AcceptsShares;
    var f := Amounts(total, Front(total, shares));
    FrontSettles(total, shares);
    PaymentsKeepShares(f, shares);
    SettlementIsUnique(total, ps, PaymentsOf(f, shares));
    forall i | 0 <= i < |shares|
      ensures ps[i].amount > 0 <==> GetsSomething(total, shares, shares[i])
    {
      assert ps[i] == PaymentOf(f, shares[i]) && shares[i] in shares;
      FrontIffRank(total, shares, shares[i]);
      BaseIsNotNegative(total, shares, shares[i]);
    }
    assert |ps| == |shares| && forall i :: 0 <= i < |ps| ==> ps[i] in ps && shares[i] in shares;
  }

  lemma BaseIsNotNegative(total: int, shares: seq<Share>, s: Share)
    requires AcceptsShares(total, shares) && s in shares
    ensures Base(total, s) >= 0
  {
    assert total > 0 && s.ppm > 0;
  }

  // ---------------------------------------------------------------- nearest to the exact shares

  /** How far the payment is from its exact share, in millionths of a unit. */
  function Off(total: int, p: Payment): int {
    Abs(SHARE_PPM_DENOMINATOR * p.amount - total * p.ppm)
  }

  function Offs(total: int): Payment -> int { (p: Payment) => Off(total, p) }

  /** Of two shares the one that is rounded up lost more by rounding down, or as much with the smaller id. */
  lemma LargestRemaindersRoundUp(total: int, ps: seq<Payment>, p: Payment, q: Payment)
    requires Settled(total, ps) && p in ps && q in ps
    requires p.amount == total * p.ppm / 1_000_000 + 1 && q.amount == total * q.ppm / 1_000_000
    ensures total * q.ppm % 1_000_000 <= total * p.ppm % 1_000_000
    ensures total * q.ppm % 1_000_000 == total * p.ppm % 1_000_000 ==> Less(p.id, q.id)
  {
    hide Less, SumOf;
  }

  function LargestKept(total: int, ps: seq<Payment>): int {
    if ps == [] then 0
    else
      var rest := LargestKept(total, ps[1..]);
      var first := if RoundedUp(total, ps[0]) then 0 else Remainder(total, ShareOf(ps[0]));
      if first > rest then first else rest
  }

  lemma {:induction false} LargestKeptIs(total: int, ps: seq<Payment>)
    ensures 0 <= LargestKept(total, ps) < SHARE_PPM_DENOMINATOR
    ensures forall p :: p in ps && !RoundedUp(total, p) ==> Remainder(total, ShareOf(p)) <= LargestKept(total, ps)
    ensures LargestKept(total, ps) == 0 ||
      exists q :: q in ps && !RoundedUp(total, q) && Remainder(total, ShareOf(q)) == LargestKept(total, ps)
  {
    hide Remainder, RoundedUp;
    if ps != [] {
      LargestKeptIs(total, ps[1..]);
      PartsOf(total, ShareOf(ps[0]));
      assert ps[0] in ps && forall p :: p in ps[1..] ==> p in ps;
    }
  }

  /** The remainders of the shares rounded up are at or above a cut, the others at or below it. */
  lemma CutOf(total: int, ps: seq<Payment>) returns (cut: int)
    requires Settled(total, ps)
    ensures 0 <= cut < SHARE_PPM_DENOMINATOR
    ensures forall p :: p in ps && RoundedUp(total, p) ==> Remainder(total, ShareOf(p)) >= cut
    ensures forall p :: p in ps && !RoundedUp(total, p) ==> Remainder(total, ShareOf(p)) <= cut
  {
    hide Remainder, RoundedUp, SumOf, Less;
    cut := LargestKept(total, ps);
    LargestKeptIs(total, ps);
    forall p | p in ps && RoundedUp(total, p)
      ensures Remainder(total, ShareOf(p)) >= cut
    {
      PartsOf(total, ShareOf(p));
    }
  }

  function Abs(d: int): int { if d < 0 then -d else d }

  lemma {:induction false} Scaled(cut: int, k: nat)
    requires 0 <= cut <= SHARE_PPM_DENOMINATOR
    ensures 0 <= cut * k <= SHARE_PPM_DENOMINATOR * k && (k > 0 ==> cut * k >= cut)
    ensures k > 0 ==> SHARE_PPM_DENOMINATOR * k - cut * k >= SHARE_PPM_DENOMINATOR - cut
  {
    if k > 0 {
      Scaled(cut, k - 1);
      Distributes(cut, k - 1, 1);
    }
  }

  /** From a share rounded down, `k` units up or down cost at least `D - 2 * cut` each. */
  lemma FromBelow(r: int, k: int, cut: int)
    requires 0 <= r <= cut <= SHARE_PPM_DENOMINATOR
    ensures Abs(SHARE_PPM_DENOMINATOR * k - r) - r >= SHARE_PPM_DENOMINATOR * k - 2 * (cut * k)
  {
    Scaled(cut, Abs(k));
    assert k < 0 ==> cut * k == -(cut * -k);
  }

  /** So they do from a share rounded up. */
  lemma FromAbove(r: int, k: int, cut: int)
    requires 0 <= cut <= r < SHARE_PPM_DENOMINATOR
    ensures Abs(SHARE_PPM_DENOMINATOR * (k + 1) - r) - (SHARE_PPM_DENOMINATOR - r)
         >= SHARE_PPM_DENOMINATOR * k - 2 * (cut * k)
  {
    var m := Abs(k);
    Scaled(cut, m);
    assert k < 0 ==> cut * k == -(cut * m);
  }

  /** Moving a payment by `b - p.amount` units changes its distance by at least `D - 2 * cut` a unit. */
  lemma MovingCosts(total: int, p: Payment, b: int, cut: int)
    requires 0 <= cut < SHARE_PPM_DENOMINATOR
    requires RoundedUp(total, p) ==> Remainder(total, ShareOf(p)) >= cut
    requires !RoundedUp(total, p) ==> p.amount == Base(total, ShareOf(p)) && Remainder(total, ShareOf(p)) <= cut
    ensures Off(total, p.(amount := b)) - Off(total, p)
         >= SHARE_PPM_DENOMINATOR * (b - p.amount) - 2 * (cut * (b - p.amount))
  {
    hide Base, Remainder;
    PartsOf(total, ShareOf(p));
    var r, k := Remainder(total, ShareOf(p)), b - p.amount;
    if RoundedUp(total, p) {
      FromAbove(r, k, cut);
    } else {
      FromBelow(r, k, cut);
    }
  }

  lemma {:induction false} MovingAllCosts(total: int, ps: seq<Payment>, qs: seq<Payment>, cut: int)
    requires SharesOf(ps) == SharesOf(qs) && 0 <= cut < SHARE_PPM_DENOMINATOR
    requires forall p :: p in ps ==> p.amount == Base(total, ShareOf(p)) || RoundedUp(total, p)
    requires forall p :: p in ps && RoundedUp(total, p) ==> Remainder(total, ShareOf(p)) >= cut
    requires forall p :: p in ps && !RoundedUp(total, p) ==> Remainder(total, ShareOf(p)) <= cut
    ensures SumOf(Offs(total), qs) - SumOf(Offs(total), ps)
         >= SHARE_PPM_DENOMINATOR * (SumOf(Amount(), qs) - SumOf(Amount(), ps))
            - 2 * (cut * (SumOf(Amount(), qs) - SumOf(Amount(), ps)))
  {
    hide Base, Remainder, RoundedUp, Off;
    assert |SharesOf(ps)| == |ps| && |SharesOf(qs)| == |qs|;
    if ps != [] {
      assert SharesOf(ps)[0] == ShareOf(ps[0]) && SharesOf(qs)[0] == ShareOf(qs[0]);
      assert qs[0] == ps[0].(amount := qs[0].amount);
      assert SharesOf(ps[1..]) == SharesOf(ps)[1..] && SharesOf(qs[1..]) == SharesOf(qs)[1..];
      MovingCosts(total, ps[0], qs[0].amount, cut);
      MovingAllCosts(total, ps[1..], qs[1..], cut);
      Distributes(cut, qs[0].amount - ps[0].amount, SumOf(Amount(), qs[1..]) - SumOf(Amount(), ps[1..]));
    }
  }

  /** Among all ways to pay the total to the shares in whole units, the settlement is nearest to the exact shares. */
  lemma SettlementIsNearest(total: int, ps: seq<Payment>, qs: seq<Payment>)
    requires Settled(total, ps) && SharesOf(qs) == SharesOf(ps) && SumOf(Amount(), qs) == total
    ensures SumOf(Offs(total), ps) <= SumOf(Offs(total), qs)
  {
    hide Base, Remainder, RoundedUp, Off, SumOf, Before;
    var cut := CutOf(total, ps);
    MovingAllCosts(total, ps, qs, cut);
  }

  lemma {:induction false} ExactSum(total: int, ps: seq<Payment>)
    requires forall p :: p in ps ==> SHARE_PPM_DENOMINATOR * p.amount >= total * p.ppm
    ensures SHARE_PPM_DENOMINATOR * SumOf(Amount(), ps) - total * SumOf(Ppm(), SharesOf(ps)) >= 0
    ensures forall p :: p in ps ==>
        SHARE_PPM_DENOMINATOR * SumOf(Amount(), ps) - total * SumOf(Ppm(), SharesOf(ps))
        >= SHARE_PPM_DENOMINATOR * p.amount - total * p.ppm
  {
    if ps != [] {
      ExactSum(total, ps[1..]);
      assert SharesOf(ps)[1..] == SharesOf(ps[1..]) && SharesOf(ps)[0] == ShareOf(ps[0]);
      Distributes(total, ps[0].ppm, SumOf(Ppm(), SharesOf(ps[1..])));
    }
  }

  /** Nobody is off by a whole unit: a share that is a whole number of units is not rounded up. */
  lemma OffByLessThanAUnit(total: int, ps: seq<Payment>, p: Payment)
    requires AcceptsShares(total, SharesOf(ps)) && Settled(total, ps) && p in ps
    ensures Off(total, p) < 1_000_000
  {
    hide Base, Remainder, SumOf, Distinct, Ids, Less;
    PartsOf(total, ShareOf(p));
    if Off(total, p) >= 1_000_000 {
      assert RoundedUp(total, p) && Remainder(total, ShareOf(p)) == 0;
      forall q | q in ps
        ensures SHARE_PPM_DENOMINATOR * q.amount >= total * q.ppm
      {
        PartsOf(total, ShareOf(q));
        assert !RoundedUp(total, q) ==> Before(total, ShareOf(p), ShareOf(q));
      }
      ExactSum(total, ps);
    }
  }
}
