/**
 Keys behind the slots of a roster: when a key counts for one slot only, and when two quorums share a key.

 A slot takes part in a quorum with one of its leaves; a key is removed from a slot with `m_within` of them.
 */
module RosterKeys {
  import opened Hashing
  import opened Results
  import opened Sequences
  import opened Roster

  datatype Use = Signing | Removing

  /** How many of its leaves a slot needs. */
  function Needed(a: AdminRecord, use: Use): int {
    if use.Signing? then 1 else a.mWithin
  }

  function Leaves(a: AdminRecord): set<Bytes> {
    set leaf | leaf in a.leaves
  }

  predicate Signs(a: AdminRecord, keys: set<Bytes>, use: Use) {
    |Leaves(a) * keys| >= Needed(a, use)
  }

  /** The slots that the keys sign for. */
  function SignedSlots(admins: seq<AdminRecord>, keys: set<Bytes>, use: Use): (r: set<int>)
    ensures forall i :: i in r <==> 0 <= i < |admins| && Signs(admins[i], keys, use)
    ensures r <= Slots(|admins|)
  {
    set i | i in Slots(|admins|) && Signs(admins[i], keys, use)
  }

  /**
   Keys that sign for a threshold of slots.
   For `Removing`, which concerns one slot at a time, this says what would follow if a threshold of slots
   removed keys.
   */
  predicate KeyQuorum(admins: seq<AdminRecord>, keys: set<Bytes>, use: Use)
    requires admins != []
  {
    |SignedSlots(admins, keys, use)| >= Threshold(|admins|)
  }

  predicate Sound(a: AdminRecord) {
    1 <= a.mWithin <= |a.leaves| && Distinct(a.leaves)
  }

  predicate AllSound(admins: seq<AdminRecord>) {
    forall i :: 0 <= i < |admins| ==> Sound(admins[i])
  }

  /** Accepted rosters are sound. */
  lemma AcceptedIsSound(s: Authority, add: Addition, l: Limits)
    requires Accepts(s, add, l)
    ensures AllSound(Added(s, add).admins)
  {
    hide Distinct;
    forall i | 0 <= i < |s.admins|
      ensures Sound(s.admins[i])
    {
      assert s.admins[i] in s.admins;
    }
  }

  // ---------------------------------------------------------------- leaves that stay apart

  /** No leaf is in two records. */
  predicate KeysApart(admins: seq<AdminRecord>) {
    forall i, j :: 0 <= i < j < |admins| ==> Leaves(admins[i]) !! Leaves(admins[j])
  }

  /** No leaf of the record is in the roster. */
  predicate Fresh(admins: seq<AdminRecord>, a: AdminRecord) {
    forall i :: 0 <= i < |admins| ==> Leaves(admins[i]) !! Leaves(a)
  }

  /** An addition keeps the leaves apart exactly when it repeats none. */
  lemma AdditionKeepsApart(admins: seq<AdminRecord>, a: AdminRecord)
    ensures KeysApart(admins + [a]) <==> KeysApart(admins) && Fresh(admins, a)
  {
    hide Leaves;
    var all := admins + [a];
    assert forall i :: 0 <= i < |admins| ==> all[i] == admins[i];
    if KeysApart(all) {
      forall i | 0 <= i < |admins|
        ensures Leaves(admins[i]) !! Leaves(a)
      {
        assert Leaves(all[i]) !! Leaves(all[|admins|]);
      }
    }
  }

  function RosterAfter(admins: seq<AdminRecord>, adds: seq<Addition>): seq<AdminRecord> {
    admins + seq(|adds|, i requires 0 <= i < |adds| => adds[i].admin)
  }

  predicate AllFresh(admins: seq<AdminRecord>, adds: seq<Addition>) {
    forall i :: 0 <= i < |adds| ==> Fresh(RosterAfter(admins, adds[..i]), adds[i].admin)
  }

  /** Over every run the leaves are apart at the end exactly when they were at the start and no addition repeats one. */
  lemma {:induction false} RunKeepsApart(s: Authority, adds: seq<Addition>, l: Limits, t: Authority)
    requires Run(s, adds, l) == Some(t)
    ensures t.admins == RosterAfter(s.admins, adds)
    ensures KeysApart(t.admins) <==> KeysApart(s.admins) && AllFresh(s.admins, adds)
  {
    hide Accepts, KeysApart, Fresh;
    if adds == [] {
      assert RosterAfter(s.admins, adds) == s.admins;
    } else {
      var n := |adds| - 1;
      var u :| Run(s, adds[..n], l) == Some(u);
      RunKeepsApart(s, adds[..n], l, u);
      AdditionKeepsApart(u.admins, adds[n].admin);
      assert RosterAfter(s.admins, adds) == RosterAfter(s.admins, adds[..n]) + [adds[n].admin];
      assert forall i :: 0 <= i < n ==> adds[..n][..i] == adds[..i] && adds[..n][i] == adds[i];
    }
  }

  // ---------------------------------------------------------------- one key, one slot

  /** The keys are shared out: every signed slot has as many of its own leaves as it needs, and no key serves two. */
  predicate SharedOut(admins: seq<AdminRecord>, keys: set<Bytes>, use: Use, share: map<int, set<Bytes>>) {
    && share.Keys == SignedSlots(admins, keys, use)
    && (forall i :: i in share ==> share[i] <= Leaves(admins[i]) * keys && |share[i]| >= Needed(admins[i], use))
    && (forall i, j :: i in share && j in share && i != j ==> share[i] !! share[j])
  }

  ghost predicate CanBeSharedOut(admins: seq<AdminRecord>, keys: set<Bytes>, use: Use) {
    exists share :: SharedOut(admins, keys, use, share)
  }

  /** How many keys the signed slots need together. */
  function Demand(admins: seq<AdminRecord>, keys: set<Bytes>, use: Use): int {
    if admins == [] then 0
    else
      var n := |admins| - 1;
      Demand(admins[..n], keys, use) + if Signs(admins[n], keys, use) then Needed(admins[n], use) else 0
  }

  function Given(share: map<int, set<Bytes>>, n: nat): set<Bytes> {
    if n == 0 then {} else Given(share, n - 1) + if n - 1 in share then share[n - 1] else {}
  }

  lemma {:induction false} GivenIs(share: map<int, set<Bytes>>, n: nat)
    ensures forall k :: k in Given(share, n) <==> exists i :: 0 <= i < n && i in share && k in share[i]
  {
    if n > 0 {
      GivenIs(share, n - 1);
    }
  }

  lemma DemandStep(admins: seq<AdminRecord>, keys: set<Bytes>, use: Use, n: nat)
    requires n < |admins|
    ensures Demand(admins[..n + 1], keys, use)
         == Demand(admins[..n], keys, use) + if Signs(admins[n], keys, use) then Needed(admins[n], use) else 0
  {
    assert admins[..n + 1][..n] == admins[..n];
  }

  lemma ShareIs(admins: seq<AdminRecord>, keys: set<Bytes>, use: Use, share: map<int, set<Bytes>>, n: nat)
    requires n < |admins| && SharedOut(admins, keys, use, share)
    ensures n in share <==> Signs(admins[n], keys, use)
    ensures n in share ==> share[n] <= keys && |share[n]| >= Needed(admins[n], use) && Given(share, n) !! share[n]
  {
    hide Signs, Needed, Leaves, Given;
    GivenIs(share, n);
  }

  /** What is shared out covers the demand. */
  lemma {:induction false} SharesCoverDemand(admins: seq<AdminRecord>, keys: set<Bytes>, use: Use,
                                             share: map<int, set<Bytes>>, n: nat)
    requires n <= |admins| && SharedOut(admins, keys, use, share)
    ensures Given(share, n) <= keys && |Given(share, n)| >= Demand(admins[..n], keys, use)
  {
    hide Signs, Needed, SharedOut, Given, Demand;
    if n == 0 {
      NothingGiven(admins, keys, use, share);
    } else {
      SharesCoverDemand(admins, keys, use, share, n - 1);
      DemandStep(admins, keys, use, n - 1);
      ShareIs(admins, keys, use, share, n - 1);
      GivenStep(share, n - 1);
    }
  }

  lemma NothingGiven(admins: seq<AdminRecord>, keys: set<Bytes>, use: Use, share: map<int, set<Bytes>>)
    ensures Given(share, 0) == {} && Demand(admins[..0], keys, use) == 0
  {
  }

  lemma GivenStep(share: map<int, set<Bytes>>, n: nat)
    requires n in share ==> Given(share, n) !! share[n]
    ensures n in share ==> Given(share, n + 1) == Given(share, n) + share[n]
    ensures |Given(share, n + 1)| == |Given(share, n)| + if n in share then |share[n]| else 0
    ensures n !in share ==> Given(share, n + 1) == Given(share, n)
  {
  }

  lemma SharedOutMeansEnough(admins: seq<AdminRecord>, keys: set<Bytes>, use: Use)
    requires CanBeSharedOut(admins, keys, use)
    ensures |keys| >= Demand(admins, keys, use)
  {
    hide SharedOut;
    var share :| SharedOut(admins, keys, use, share);
    SharesCoverDemand(admins, keys, use, share, |admins|);
    assert admins[..|admins|] == admins;
    SubsetIsSmaller(Given(share, |admins|), keys);
  }

  lemma ApartIsSharedOut(admins: seq<AdminRecord>, keys: set<Bytes>, use: Use)
    requires KeysApart(admins)
    ensures CanBeSharedOut(admins, keys, use)
  {
    hide Leaves, KeysApart;
    var share := map i | i in SignedSlots(admins, keys, use) :: Leaves(admins[i]) * keys;
    forall i, j | i in share && j in share && i != j
      ensures share[i] !! share[j]
    {
      TwoRecordsApart(admins, i, j);
    }
    assert SharedOut(admins, keys, use, share);
  }

  lemma TwoRecordsApart(admins: seq<AdminRecord>, i: int, j: int)
    requires KeysApart(admins) && 0 <= i < |admins| && 0 <= j < |admins| && i != j
    ensures Leaves(admins[i]) !! Leaves(admins[j])
  {
    hide Leaves;
    assert i < j ==> Leaves(admins[i]) !! Leaves(admins[j]);
    assert j < i ==> Leaves(admins[j]) !! Leaves(admins[i]);
  }

  // ---------------------------------------------------------------- too few keys where leaves repeat

  function Total(admins: seq<AdminRecord>, use: Use): int {
    if admins == [] then 0 else Total(admins[..|admins| - 1], use) + Needed(admins[|admins| - 1], use)
  }

  lemma {:induction false} DistinctSize(s: seq<Bytes>)
    requires Distinct(s)
    ensures |set k | k in s| == |s|
  {
    if s != [] {
      var n := |s| - 1;
      DistinctSize(s[..n]);
      assert (set k | k in s) == (set k | k in s[..n]) + {s[n]};
      assert s[n] !in s[..n];
    }
  }

  lemma LeavesSize(a: AdminRecord)
    requires Sound(a)
    ensures |Leaves(a)| == |a.leaves|
  {
    DistinctSize(a.leaves);
  }

  /** A set has subsets of every smaller size. */
  lemma {:induction false} SubsetOfSize<T(!new)>(s: set<T>, k: nat)
    requires k <= |s|
    ensures exists r :: r <= s && |r| == k
    decreases k
  {
    if k == 0 {
      var none: set<T> := {};
      assert none <= s && |none| == k;
    } else {
      var x :| x in s;
      SubsetOfSize(s - {x}, k - 1);
      var rest :| rest <= s - {x} && |rest| == k - 1;
      assert rest + {x} <= s && |rest + {x}| == k;
    }
  }

  lemma JustEnough(a: AdminRecord, use: Use, leaf: Bytes) returns (p: set<Bytes>)
    requires Sound(a)
    ensures p <= Leaves(a) && |p| == Needed(a, use) && (leaf in Leaves(a) ==> leaf in p)
  {
    LeavesSize(a);
    if leaf in Leaves(a) {
      SubsetOfSize(Leaves(a) - {leaf}, Needed(a, use) - 1);
      var rest :| rest <= Leaves(a) - {leaf} && |rest| == Needed(a, use) - 1;
      p := rest + {leaf};
    } else {
      SubsetOfSize(Leaves(a), Needed(a, use));
      p :| p <= Leaves(a) && |p| == Needed(a, use);
    }
  }

  lemma MoreKeysSign(a: AdminRecord, keys: set<Bytes>, more: set<Bytes>, use: Use)
    requires keys <= more && Signs(a, keys, use)
    ensures Signs(a, more, use)
  {
    SubsetIsSmaller(Leaves(a) * keys, Leaves(a) * more);
  }

  predicate AllSign(admins: seq<AdminRecord>, keys: set<Bytes>, use: Use) {
    forall i :: 0 <= i < |admins| ==> Signs(admins[i], keys, use)
  }

  predicate Holds(admins: seq<AdminRecord>, leaf: Bytes) {
    exists i :: 0 <= i < |admins| && leaf in Leaves(admins[i])
  }

  /** A leaf in two records saves a key. */
  lemma {:induction false} EconomicKeys(admins: seq<AdminRecord>, use: Use, leaf: Bytes) returns (keys: set<Bytes>)
    requires AllSound(admins)
    ensures AllSign(admins, keys, use) && |keys| <= Total(admins, use)
    ensures Holds(admins, leaf) ==> leaf in keys
    ensures forall i, j :: 0 <= i < j < |admins| && leaf in Leaves(admins[i]) && leaf in Leaves(admins[j]) ==>
              |keys| < Total(admins, use)
    decreases |admins|
  {
    hide Signs, Leaves, Needed, Sound;
    if admins == [] {
      keys := {};
    } else {
      var n := |admins| - 1;
      var front, last := admins[..n], admins[n];
      var before := EconomicKeys(front, use, leaf);
      var own := JustEnough(last, use, leaf);
      keys := before + own;
      forall i | 0 <= i < n
        ensures Signs(admins[i], keys, use)
      {
        assert Signs(front[i], before, use);
        MoreKeysSign(front[i], before, keys, use);
      }
      OwnLeavesSign(last, own, keys, use);
      assert |keys| == |before| + |own| - |before * own|;
      assert forall i :: 0 <= i < n ==> front[i] == admins[i];
      if leaf in Leaves(last) && Holds(front, leaf) {
        assert leaf in before * own;
      }
    }
  }

  lemma OwnLeavesSign(a: AdminRecord, own: set<Bytes>, keys: set<Bytes>, use: Use)
    requires own <= Leaves(a) && own <= keys && |own| >= Needed(a, use)
    ensures Signs(a, keys, use)
  {
    SubsetIsSmaller(own, Leaves(a) * keys);
  }

  lemma {:induction false} AllSignDemand(admins: seq<AdminRecord>, keys: set<Bytes>, use: Use)
    requires AllSign(admins, keys, use)
    ensures Demand(admins, keys, use) == Total(admins, use)
  {
    hide Signs, Needed;
    if admins != [] {
      AllSignDemand(admins[..|admins| - 1], keys, use);
    }
  }

  lemma AllSignIsQuorum(admins: seq<AdminRecord>, keys: set<Bytes>, use: Use)
    requires admins != [] && AllSign(admins, keys, use)
    ensures KeyQuorum(admins, keys, use)
  {
    hide Signs;
    assert SignedSlots(admins, keys, use) == Slots(|admins|);
    ThresholdIsComplement(|admins|);
  }

  /** Where a leaf is in two records, some quorum has fewer keys than its slots need. */
  lemma RepeatedLeafSaves(admins: seq<AdminRecord>, use: Use) returns (keys: set<Bytes>)
    requires admins != [] && AllSound(admins) && !KeysApart(admins)
    ensures KeyQuorum(admins, keys, use) && |keys| < Demand(admins, keys, use)
    ensures !CanBeSharedOut(admins, keys, use)
  {
    hide Leaves, CanBeSharedOut, Signs;
    var i, j :| 0 <= i < j < |admins| && !(Leaves(admins[i]) !! Leaves(admins[j]));
    var leaf :| leaf in Leaves(admins[i]) && leaf in Leaves(admins[j]);
    keys := EconomicKeys(admins, use, leaf);
    AllSignIsQuorum(admins, keys, use);
    AllSignDemand(admins, keys, use);
    if CanBeSharedOut(admins, keys, use) {
      SharedOutMeansEnough(admins, keys, use);
    }
  }

  /**
   Every quorum of keys has separate keys for each of its slots exactly when no leaf is in two records; equally, every
   quorum has as many keys as its slots need.
   */
  lemma KeysCountOnceIff(admins: seq<AdminRecord>, use: Use)
    requires admins != [] && AllSound(admins)
    ensures (forall keys :: KeyQuorum(admins, keys, use) ==> CanBeSharedOut(admins, keys, use)) <==> KeysApart(admins)
    ensures (forall keys :: KeyQuorum(admins, keys, use) ==> |keys| >= Demand(admins, keys, use)) <==> KeysApart(admins)
  {
    hide CanBeSharedOut, KeyQuorum, KeysApart;
    if KeysApart(admins) {
      forall keys
        ensures CanBeSharedOut(admins, keys, use) && |keys| >= Demand(admins, keys, use)
      {
        ApartIsSharedOut(admins, keys, use);
        SharedOutMeansEnough(admins, keys, use);
      }
    } else {
      var keys := RepeatedLeafSaves(admins, use);
    }
  }

  // ---------------------------------------------------------------- keys that two quorums share

  /** The slot's leaves do not suffice to sign for it twice with different keys. */
  predicate Indivisible(a: AdminRecord, use: Use) {
    2 * Needed(a, use) > |a.leaves|
  }

  lemma IndivisibleSharesKey(a: AdminRecord, k1: set<Bytes>, k2: set<Bytes>, use: Use)
    requires Sound(a) && Indivisible(a, use) && Signs(a, k1, use) && Signs(a, k2, use)
    ensures Leaves(a) * (k1 * k2) != {}
  {
    LeavesSize(a);
    var x, y := Leaves(a) * k1, Leaves(a) * k2;
    SubsetIsSmaller(x + y, Leaves(a));
    assert |x + y| == |x| + |y| - |x * y|;
    assert x * y == Leaves(a) * (k1 * k2);
  }

  /** Different keys for two signatures of one slot. */
  lemma DivisibleSplits(a: AdminRecord, use: Use) returns (p: set<Bytes>, q: set<Bytes>)
    requires Sound(a) && !Indivisible(a, use)
    ensures p <= Leaves(a) && q <= Leaves(a) && p !! q && |p| == |q| == Needed(a, use)
  {
    LeavesSize(a);
    SubsetOfSize(Leaves(a), Needed(a, use));
    p :| p <= Leaves(a) && |p| == Needed(a, use);
    SubsetOfSize(Leaves(a) - p, Needed(a, use));
    q :| q <= Leaves(a) - p && |q| == Needed(a, use);
  }

  /** Any two sets of keys that sign for one slot share a leaf of it exactly when the slot is indivisible. */
  lemma SlotSharesKeyIff(a: AdminRecord, use: Use)
    requires Sound(a)
    ensures (forall k1, k2 :: Signs(a, k1, use) && Signs(a, k2, use) ==> Leaves(a) * (k1 * k2) != {})
       <==> Indivisible(a, use)
  {
    hide Signs, Leaves, Indivisible;
    if Indivisible(a, use) {
      forall k1, k2 | Signs(a, k1, use) && Signs(a, k2, use)
        ensures Leaves(a) * (k1 * k2) != {}
      {
        IndivisibleSharesKey(a, k1, k2, use);
      }
    } else {
      var p, q := DivisibleSplits(a, use);
      OwnLeavesSign(a, p, p, use);
      OwnLeavesSign(a, q, q, use);
      assert p * q == {};
    }
  }

  /** The slots for which two quorums can sign with different keys. */
  function Divisible(admins: seq<AdminRecord>, use: Use): (r: set<int>)
    ensures forall i :: i in r <==> 0 <= i < |admins| && !Indivisible(admins[i], use)
    ensures r <= Slots(|admins|)
  {
    set i | i in Slots(|admins|) && !Indivisible(admins[i], use)
  }

  /** Quorums of a roster and of one it has grown into share a key when too few slots are divisible to avoid it. */
  lemma QuorumsShareKey(admins: seq<AdminRecord>, n: nat, use: Use, k1: set<Bytes>, k2: set<Bytes>)
    requires 1 <= n <= |admins| && AllSound(admins)
    requires KeyQuorum(admins[..n], k1, use) && KeyQuorum(admins, k2, use)
    requires |Divisible(admins[..n], use)| < Threshold(n) + Threshold(|admins|) - |admins|
    ensures k1 * k2 != {}
  {
    hide Signs, Indivisible, Leaves;
    var m, front := |admins|, admins[..n];
    var a, b := SignedSlots(front, k1, use), SignedSlots(admins, k2, use);
    QuorumsShare(n, m, a, b);
    if a * b <= Divisible(front, use) {
      SubsetIsSmaller(a * b, Divisible(front, use));
    }
    var i :| i in a * b && i !in Divisible(front, use);
    assert front[i] == admins[i];
    IndivisibleSharesKey(admins[i], k1, k2, use);
  }

  function UnionAll(ps: seq<set<Bytes>>): set<Bytes> {
    if ps == [] then {} else UnionAll(ps[..|ps| - 1]) + ps[|ps| - 1]
  }

  lemma {:induction false} UnionAllIs(ps: seq<set<Bytes>>)
    ensures forall k :: k in UnionAll(ps) <==> exists i :: 0 <= i < |ps| && k in ps[i]
  {
    if ps != [] {
      var n := |ps| - 1;
      UnionAllIs(ps[..n]);
      assert forall i :: 0 <= i < n ==> ps[..n][i] == ps[i];
    }
  }

  /** Each record gives only leaves of its own, and enough of them for the slots of `who`. */
  predicate Gives(admins: seq<AdminRecord>, ps: seq<set<Bytes>>, who: set<int>, use: Use) {
    && |ps| == |admins|
    && (forall i :: 0 <= i < |ps| ==> ps[i] <= Leaves(admins[i]))
    && (forall i :: i in who && 0 <= i < |ps| ==> |ps[i]| >= Needed(admins[i], use))
    && (forall i :: 0 <= i < |ps| && i !in who ==> ps[i] == {})
  }

  lemma GivenKeysAreQuorum(admins: seq<AdminRecord>, ps: seq<set<Bytes>>, who: set<int>, use: Use, n: nat)
    requires 1 <= n <= |admins| && Gives(admins, ps, who, use) && Quorum(who, n)
    ensures KeyQuorum(admins[..n], UnionAll(ps), use)
  {
    hide Leaves, Needed, Signs;
    UnionAllIs(ps);
    var keys, front := UnionAll(ps), admins[..n];
    forall i | i in who
      ensures i in SignedSlots(front, keys, use)
    {
      assert front[i] == admins[i] && ps[i] <= keys;
      OwnLeavesSign(admins[i], ps[i], keys, use);
    }
    SubsetIsSmaller(who, SignedSlots(front, keys, use));
  }

  /** Splits the leaves of the slots in `both` and gives the others' whole to one side. */
  lemma {:induction false} SplitLeaves(admins: seq<AdminRecord>, use: Use, a: set<int>, b: set<int>)
    returns (ps: seq<set<Bytes>>, qs: seq<set<Bytes>>)
    requires AllSound(admins)
    requires forall i :: i in a * b && 0 <= i < |admins| ==> !Indivisible(admins[i], use)
    ensures Gives(admins, ps, a, use) && Gives(admins, qs, b, use)
    ensures forall i :: 0 <= i < |admins| ==> ps[i] !! qs[i]
    decreases |admins|
  {
    hide Leaves, Needed, Indivisible, Sound;
    if admins == [] {
      ps, qs := [], [];
    } else {
      var n := |admins| - 1;
      var before, after := SplitLeaves(admins[..n], use, a, b);
      var p, q := SplitOne(admins[n], use, n in a, n in b);
      ps, qs := before + [p], after + [q];
    }
  }

  lemma SplitOne(r: AdminRecord, use: Use, inA: bool, inB: bool) returns (p: set<Bytes>, q: set<Bytes>)
    requires Sound(r) && (inA && inB ==> !Indivisible(r, use))
    ensures p <= Leaves(r) && q <= Leaves(r) && p !! q
    ensures if inA then |p| >= Needed(r, use) else p == {}
    ensures if inB then |q| >= Needed(r, use) else q == {}
  {
    LeavesSize(r);
    if inA && inB {
      p, q := DivisibleSplits(r, use);
    } else {
      p, q := if inA then Leaves(r) else {}, if inB then Leaves(r) else {};
    }
  }

  lemma ApartUnionsMiss(admins: seq<AdminRecord>, ps: seq<set<Bytes>>, qs: seq<set<Bytes>>)
    requires KeysApart(admins) && |ps| == |qs| == |admins|
    requires forall i :: 0 <= i < |admins| ==>
        ps[i] <= Leaves(admins[i]) && qs[i] <= Leaves(admins[i]) && ps[i] !! qs[i]
    ensures UnionAll(ps) * UnionAll(qs) == {}
  {
    hide Leaves, KeysApart;
    UnionAllIs(ps);
    UnionAllIs(qs);
    forall k | k in UnionAll(ps)
      ensures k !in UnionAll(qs)
    {
      var i :| 0 <= i < |ps| && k in ps[i];
      forall j | 0 <= j < |qs|
        ensures k !in qs[j]
      {
        if i != j {
          TwoRecordsApart(admins, i, j);
        }
      }
    }
  }

  /** A set of slots grows to any size within a larger one. */
  lemma GrowTo(base: set<int>, all: set<int>, k: nat) returns (r: set<int>)
    requires base <= all && |base| <= k <= |all|
    ensures base <= r <= all && |r| == k
  {
    assert |all - base| == |all| - |base| by { SubsetIsSmaller(base, all); }
    SubsetOfSize(all - base, k - |base|);
    var more :| more <= all - base && |more| == k - |base|;
    r := base + more;
  }

  /** Two quorums of slots that overlap in divisible slots only. */
  lemma QuorumsThatAvoid(n: nat, m: nat, divisible: set<int>) returns (a: set<int>, b: set<int>)
    requires 1 <= n <= m && divisible <= Slots(n)
    requires |divisible| >= Threshold(n) + Threshold(m) - m
    ensures Quorum(a, n) && Quorum(b, m) && a * b <= divisible
  {
    ThresholdIsComplement(n);
    ThresholdIsComplement(m);
    var both := GrowTo({}, divisible, if Threshold(n) + Threshold(m) > m then Threshold(n) + Threshold(m) - m else 0);
    a := GrowTo(both, Slots(n), Threshold(n));
    var rest := Slots(m) - (a - both);
    assert |rest| == m - (Threshold(n) - |both|);
    b := GrowTo(both, rest, Threshold(m));
  }

  /**
   Where leaves are apart, every quorum of keys of a roster shares a key with every quorum of keys of the roster it has
   grown into exactly when the divisible slots are fewer than the slots that two quorums must share.
   */
  lemma QuorumsShareKeyIff(admins: seq<AdminRecord>, n: nat, use: Use)
    requires 1 <= n <= |admins| && AllSound(admins) && KeysApart(admins)
    ensures (forall k1, k2 :: KeyQuorum(admins[..n], k1, use) && KeyQuorum(admins, k2, use) ==> k1 * k2 != {})
       <==> |Divisible(admins[..n], use)| < Threshold(n) + Threshold(|admins|) - |admins|
  {
    hide KeyQuorum, KeysApart, Indivisible, Leaves, Needed, Sound;
    var m, front := |admins|, admins[..n];
    if |Divisible(front, use)| < Threshold(n) + Threshold(m) - m {
      forall k1, k2 | KeyQuorum(front, k1, use) && KeyQuorum(admins, k2, use)
        ensures k1 * k2 != {}
      {
        QuorumsShareKey(admins, n, use, k1, k2);
      }
    } else {
      var a, b := QuorumsThatAvoid(n, m, Divisible(front, use));
      assert forall i :: i in a * b ==> i in Divisible(front, use) && front[i] == admins[i];
      var ps, qs := SplitLeaves(admins, use, a, b);
      GivenKeysAreQuorum(admins, ps, a, use, n);
      GivenKeysAreQuorum(admins, qs, b, use, m);
      assert admins[..m] == admins;
      ApartUnionsMiss(admins, ps, qs);
    }
  }

  /**
   Along every run that repeats no leaf, a roster's quorums of keys share a key with those of the roster that
   succeeds it exactly when the divisible slots are fewer than the slots that two such quorums must share.
   */
  lemma RunQuorumsShareKeyIff(s: Authority, adds: seq<Addition>, l: Limits, u: Authority, t: Authority, use: Use)
    requires adds != [] && Run(s, adds[..|adds| - 1], l) == Some(u) && Run(s, adds, l) == Some(t)
    requires Contiguous(s.admins) && KeysApart(s.admins) && AllFresh(s.admins, adds)
    ensures u.admins != [] && t.admins != []
    ensures (forall k1, k2 :: KeyQuorum(u.admins, k1, use) && KeyQuorum(t.admins, k2, use) ==> k1 * k2 != {})
       <==> |Divisible(u.admins, use)| < Threshold(|u.admins|) + Threshold(|t.admins|) - |t.admins|
  {
    hide Accepts, KeysApart, AllFresh, KeyQuorum, Divisible;
    var n := |adds| - 1;
    LastAddition(s, adds, l, u, t);
    RunKeepsApart(s, adds, l, t);
    AcceptedIsSound(u, adds[n], l);
    assert t.admins[..|u.admins|] == u.admins;
    QuorumsShareKeyIff(t.admins, |u.admins|, use);
  }

  lemma LastAddition(s: Authority, adds: seq<Addition>, l: Limits, u: Authority, t: Authority)
    requires adds != [] && Run(s, adds[..|adds| - 1], l) == Some(u) && Run(s, adds, l) == Some(t)
    ensures Accepts(u, adds[|adds| - 1], l) && t == Added(u, adds[|adds| - 1]) && u.admins != []
  {
    hide ValidRecord, Distinct;
  }

  /** One leaf a slot, as after the ceremony: every slot is indivisible, so quorums that share a slot share a key. */
  lemma SingleLeavesShareKeys(admins: seq<AdminRecord>, n: nat, use: Use, k1: set<Bytes>, k2: set<Bytes>)
    requires 1 <= n <= |admins| && AllSound(admins) && AlwaysMeet(n, |admins|)
    requires forall i :: 0 <= i < n ==> |admins[i].leaves| == 1
    requires KeyQuorum(admins[..n], k1, use) && KeyQuorum(admins, k2, use)
    ensures k1 * k2 != {}
  {
    hide KeyQuorum;
    var front := admins[..n];
    forall i | 0 <= i < n
      ensures Indivisible(front[i], use)
    {
      assert Sound(admins[i]);
    }
    assert Divisible(front, use) == {};
    QuorumsShareKey(admins, n, use, k1, k2);
  }
}
