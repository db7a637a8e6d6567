/**
 The administrators' roster: an append-only list whose supermajorities must overlap.
 */
module Roster {
  import opened Hashing
  import opened Results
  import opened Sequences
  import opened Clvm

  datatype AdminRecord = AdminRecord(idx: int, leaves: seq<Bytes>, mWithin: int)
  datatype PendingOp = PendingOp(idx: int, kind: int, target: Bytes, activatesAt: int)

  predicate ValidRecord(a: AdminRecord, maxKeys: int) {
    && a.idx >= 0
    && 1 <= |a.leaves| <= maxKeys
    && 1 <= a.mWithin <= |a.leaves|
    && (forall leaf :: leaf in a.leaves ==> |leaf| == 32)
    && Distinct(a.leaves)
  }

  method ValidateAdminRecord(a: AdminRecord, maxKeys: int) returns (ok: bool)
    ensures ok <==> ValidRecord(a, maxKeys)
  {
    if a.idx < 0 || a.leaves == [] || |a.leaves| > maxKeys || a.mWithin < 1 || a.mWithin > |a.leaves| {
      return false;
    }
    var seen: set<Bytes> := {};
    for i := 0 to |a.leaves|
      invariant seen == set j | 0 <= j < i :: a.leaves[j]
      invariant forall j :: 0 <= j < i ==> |a.leaves[j]| == 32
      invariant Distinct(a.leaves[..i])
    {
      if |a.leaves[i]| != 32 || a.leaves[i] in seen {
        return false;
      }
      seen := seen + {a.leaves[i]};
    }
    assert a.leaves[..|a.leaves|] == a.leaves;
    return true;
  }

  function Indices(admins: seq<AdminRecord>): seq<int> {
    seq(|admins|, i requires 0 <= i < |admins| => admins[i].idx)
  }

  function MaxIndex(admins: seq<AdminRecord>): int
    requires admins != []
  {
    var last := admins[|admins| - 1].idx;
    if |admins| == 1 then last
    else
      var before := MaxIndex(admins[..|admins| - 1]);
      if before > last then before else last
  }

  function Threshold(n: int): int
    requires n >= 1
  {
    (2 * n + 2) / 3
  }

  // ---------------------------------------------------------------- hashes

  function AdminTree(a: AdminRecord): Tree {
    ListOf([IntTree(a.idx), ListOf(Atoms(a.leaves)), IntTree(a.mWithin)])
  }

  function Atoms(bs: seq<Bytes>): seq<Tree> {
    seq(|bs|, i requires 0 <= i < |bs| => Atom(bs[i]))
  }

  function AdminTrees(admins: seq<AdminRecord>): seq<Tree> {
    seq(|admins|, i requires 0 <= i < |admins| => AdminTree(admins[i]))
  }

  function AdminsHash(admins: seq<AdminRecord>): Bytes32 {
    TreeHash(ListOf(AdminTrees(admins)))
  }

  function PendingOpTree(p: PendingOp): Tree {
    ListOf([IntTree(p.idx), IntTree(p.kind), Atom(p.target), IntTree(p.activatesAt)])
  }

  function PendingOpTrees(ops: seq<PendingOp>): seq<Tree> {
    seq(|ops|, i requires 0 <= i < |ops| => PendingOpTree(ops[i]))
  }

  function PendingOpsHash(ops: seq<PendingOp>): Bytes32 {
    TreeHash(ListOf(PendingOpTrees(ops)))
  }

  function StateFields(mipsRoot: Bytes, adminsHash: Bytes32, pendingHash: Bytes32, version: int): seq<Tree> {
    [Atom(mipsRoot), Atom(adminsHash), Atom(pendingHash), IntTree(version)]
  }

  function StateHash(mipsRoot: Bytes, adminsHash: Bytes32, pendingHash: Bytes32, version: int): Bytes32 {
    TreeHash(ListOf(StateFields(mipsRoot, adminsHash, pendingHash, version)))
  }

  // ---------------------------------------------------------------- adding a slot

  datatype Authority = Authority(admins: seq<AdminRecord>, pending: seq<PendingOp>, mipsRoot: Bytes, version: int)

  datatype Limits = Limits(maxAdmins: int, maxKeys: int)

  datatype Addition = Addition(admin: AdminRecord, mipsRoot: Bytes, version: int)

  datatype Preview = Preview(next: Authority, threshold: int, stateHash: Bytes32)

  predicate Accepts(s: Authority, add: Addition, l: Limits) {
    && 1 <= |s.admins| < l.maxAdmins
    && add.version == s.version + 1
    && |s.mipsRoot| == |add.mipsRoot| == 32 && s.mipsRoot != add.mipsRoot
    && (forall a :: a in s.admins ==> ValidRecord(a, l.maxKeys))
    && Distinct(Indices(s.admins))
    && ValidRecord(add.admin, l.maxKeys)
    && add.admin.idx == MaxIndex(s.admins) + 1
  }

  function Added(s: Authority, add: Addition): Authority {
    s.(admins := s.admins + [add.admin], mipsRoot := add.mipsRoot, version := add.version)
  }

  method BuildSlotAddPreview(s: Authority, add: Addition, l: Limits) returns (r: Result<Preview>)
    ensures r.Ok? <==> Accepts(s, add, l)
    ensures r.Ok? ==>
              && r.value.next == Added(s, add)
              && r.value.threshold == Threshold(|s.admins| + 1)
              && r.value.stateHash == StateHash(add.mipsRoot, AdminsHash(s.admins + [add.admin]),
                                                PendingOpsHash(s.pending), add.version)
  {
    hide ValidRecord, StateHash, AdminsHash, PendingOpsHash, Distinct, Indices, MaxIndex;
    if s.admins == [] {
      return Err("current_admins must contain at least one admin");
    }
    if |s.admins| >= l.maxAdmins {
      return Err("admin roster already has max_admins");
    }
    if add.version != s.version + 1 {
      return Err("new_authority_version must equal current_authority_version + 1");
    }
    if |s.mipsRoot| != 32 || |add.mipsRoot| != 32 {
      return Err("mips_root_hash must be 32 bytes");
    }
    if add.mipsRoot == s.mipsRoot {
      return Err("new_mips_root_hash must change when adding an admin slot");
    }
    var seen := SeenIndices(s.admins, l.maxKeys);
    if seen.Err? {
      return Err(seen.reason);
    }
    var ok := ValidateAdminRecord(add.admin, l.maxKeys);
    if !ok {
      return Err("new admin record is not valid");
    }
    NextIndexIsNew(s.admins);
    if add.admin.idx in seen.value {
      return Err("admin_idx already exists");
    }
    if add.admin.idx != MaxIndex(s.admins) + 1 {
      return Err("new admin_idx must be next contiguous slot");
    }
    var admins := s.admins + [add.admin];
    return Ok(Preview(Authority(admins, s.pending, add.mipsRoot, add.version), Threshold(|admins|),
                      StateHash(add.mipsRoot, AdminsHash(admins), PendingOpsHash(s.pending), add.version)));
  }

  /** The slot numbers of a roster whose records are valid and differ in theirs. */
  method SeenIndices(admins: seq<AdminRecord>, maxKeys: int) returns (r: Result<set<int>>)
    ensures r.Ok? <==> (forall a :: a in admins ==> ValidRecord(a, maxKeys)) && Distinct(Indices(admins))
    ensures r.Ok? ==> forall k :: k in r.value <==> k in Indices(admins)
  {
    hide ValidRecord, Distinct;
    var seen: set<int> := {};
    NoIndices(admins);
    for i := 0 to |admins|
      invariant seen == set j | 0 <= j < i :: admins[j].idx
      invariant forall j :: 0 <= j < i ==> ValidRecord(admins[j], maxKeys)
      invariant Distinct(Indices(admins[..i]))
    {
      var ok := ValidateAdminRecord(admins[i], maxKeys);
      if !ok {
        assert admins[i] in admins;
        return Err("admin record is not valid");
      }
      if admins[i].idx in seen {
        RepeatedIndex(admins, i);
        return Err("duplicate admin_idx");
      }
      seen := seen + {admins[i].idx};
      DistinctStep(admins, i);
    }
    assert admins[..|admins|] == admins;
    IndicesAre(admins);
    return Ok(seen);
  }

  lemma IndicesAre(admins: seq<AdminRecord>)
    ensures forall k :: k in Indices(admins) <==> exists j :: 0 <= j < |admins| && admins[j].idx == k
  {
    assert forall j :: 0 <= j < |admins| ==> Indices(admins)[j] == admins[j].idx;
  }

  lemma NoIndices(admins: seq<AdminRecord>)
    ensures Distinct(Indices(admins[..0]))
  {
  }

  lemma RepeatedIndex(admins: seq<AdminRecord>, i: nat)
    requires i < |admins| && exists j :: 0 <= j < i && admins[j].idx == admins[i].idx
    ensures !Distinct(Indices(admins))
  {
    var j :| 0 <= j < i && admins[j].idx == admins[i].idx;
    assert Indices(admins)[j] == Indices(admins)[i];
  }

  lemma DistinctStep(admins: seq<AdminRecord>, i: nat)
    requires i < |admins| && Distinct(Indices(admins[..i]))
    requires forall j :: 0 <= j < i ==> admins[j].idx != admins[i].idx
    ensures Distinct(Indices(admins[..i + 1]))
  {
    assert Indices(admins[..i + 1]) == Indices(admins[..i]) + [admins[i].idx];
    DistinctSplits(Indices(admins[..i]), [admins[i].idx]);
  }

  lemma NextIndexIsNew(admins: seq<AdminRecord>)
    requires admins != []
    ensures MaxIndex(admins) + 1 !in Indices(admins)
  {
    MaxIndexIsMax(admins);
  }

  lemma {:induction false} MaxIndexIsMax(admins: seq<AdminRecord>)
    requires admins != []
    ensures forall j :: 0 <= j < |admins| ==> admins[j].idx <= MaxIndex(admins)
  {
    if |admins| > 1 {
      var n := |admins| - 1;
      MaxIndexIsMax(admins[..n]);
      assert forall j :: 0 <= j < n ==> admins[..n][j] == admins[j];
    }
  }

  // ---------------------------------------------------------------- runs

  function Run(s: Authority, adds: seq<Addition>, l: Limits): Option<Authority> {
    if adds == [] then Some(s)
    else
      match Run(s, adds[..|adds| - 1], l)
      case None => None
      case Some(t) =>
        var add := adds[|adds| - 1];
        if Accepts(t, add, l) then Some(Added(t, add)) else None
  }

  /** Slot numbers are list positions. */
  predicate Contiguous(admins: seq<AdminRecord>) {
    forall i :: 0 <= i < |admins| ==> admins[i].idx == i
  }

  lemma {:induction false} MaxOfContiguous(admins: seq<AdminRecord>)
    requires admins != [] && Contiguous(admins)
    ensures MaxIndex(admins) == |admins| - 1
  {
    if |admins| > 1 {
      MaxOfContiguous(admins[..|admins| - 1]);
    }
  }

  /** Slots stay contiguous, earlier records stay where they are, every addition counts once, the maximum holds. */
  lemma {:induction false} RunKeepsRoster(s: Authority, adds: seq<Addition>, l: Limits, t: Authority)
    requires Contiguous(s.admins) && Run(s, adds, l) == Some(t)
    ensures Contiguous(t.admins) && s.admins <= t.admins
    ensures |t.admins| == |s.admins| + |adds| && t.version == s.version + |adds|
    ensures adds != [] ==> |t.admins| <= l.maxAdmins && forall a :: a in t.admins ==> ValidRecord(a, l.maxKeys)
    ensures forall i :: 0 <= i < |adds| ==> t.admins[|s.admins| + i] == adds[i].admin
    ensures t.pending == s.pending
  {
    hide ValidRecord, Distinct, MaxIndex, Indices;
    if adds != [] {
      var n := |adds| - 1;
      var u :| Run(s, adds[..n], l) == Some(u);
      RunKeepsRoster(s, adds[..n], l, u);
      MaxOfContiguous(u.admins);
    }
  }

  // ---------------------------------------------------------------- quorums

  /** The slots of a roster of `n`. */
  function Slots(n: nat): (r: set<int>)
    ensures forall i :: i in r <==> 0 <= i < n
    ensures |r| == n
  {
    if n == 0 then {} else Slots(n - 1) + {n - 1}
  }

  predicate Quorum(who: set<int>, n: nat)
    requires n >= 1
  {
    who <= Slots(n) && |who| >= Threshold(n)
  }

  lemma SubsetIsSmaller<T>(a: set<T>, b: set<T>)
    requires a <= b
    ensures |a| <= |b|
  {
    assert b == a + (b - a);
  }

  /** Quorums of a roster and of a larger one cannot miss each other. */
  predicate AlwaysMeet(n: nat, m: nat)
    requires 1 <= n <= m
  {
    Threshold(n) + Threshold(m) > m
  }

  /** Two quorums share at least as many slots as the thresholds exceed the roster. */
  lemma QuorumsShare(n: nat, m: nat, a: set<int>, b: set<int>)
    requires 1 <= n <= m && Quorum(a, n) && Quorum(b, m)
    ensures |a * b| >= Threshold(n) + Threshold(m) - m
  {
    assert Slots(n) <= Slots(m);
    SubsetIsSmaller(a + b, Slots(m));
    assert |a + b| == |a| + |b| - |a * b|;
  }

  /**
   Every quorum of `n` meets every quorum of `m >= n` exactly when a third of `m` is less than the threshold of `n`.
   */
  lemma QuorumsMeetIff(n: nat, m: nat)
    requires 1 <= n <= m
    ensures (forall a, b :: Quorum(a, n) && Quorum(b, m) ==> a * b != {}) <==> m / 3 < Threshold(n)
    ensures AlwaysMeet(n, m) <==> m / 3 < Threshold(n)
  {
    ThresholdIsComplement(m);
    if AlwaysMeet(n, m) {
      forall a, b | Quorum(a, n) && Quorum(b, m)
        ensures a * b != {}
      {
        QuorumsShare(n, m, a, b);
      }
    } else {
      var a, b := Slots(Threshold(n)), Slots(m) - Slots(m - Threshold(m));
      assert Slots(m - Threshold(m)) <= Slots(m);
      assert |b| == Threshold(m);
      assert Threshold(n) <= n;
      assert Quorum(a, n) && Quorum(b, m) && a * b == {};
    }
  }

  lemma ThresholdIsComplement(m: nat)
    requires m >= 1
    ensures Threshold(m) == m - m / 3 && 1 <= Threshold(m) <= m
  {
  }

  /** Quorums of one roster, of successive rosters, and of rosters less than twice as large always meet. */
  lemma SuccessiveQuorumsMeet(n: nat, m: nat)
    requires 1 <= n <= m && (m == n + 1 || m < 2 * n || n == m)
    ensures AlwaysMeet(n, m)
  {
    QuorumsMeetIff(n, m);
  }

  /** Along every run a quorum of a roster meets every quorum of the roster that succeeds it, and of its own. */
  lemma QuorumsMeetAlongRuns(s: Authority, adds: seq<Addition>, l: Limits, u: Authority, t: Authority,
                             a: set<int>, b: set<int>, c: set<int>)
    requires Contiguous(s.admins) && adds != []
    requires Run(s, adds[..|adds| - 1], l) == Some(u) && Run(s, adds, l) == Some(t)
    requires u.admins != [] && Quorum(a, |u.admins|) && Quorum(c, |u.admins|) && Quorum(b, |t.admins|)
    ensures a * b != {} && a * c != {}
  {
    RunKeepsRoster(s, adds[..|adds| - 1], l, u);
    RunKeepsRoster(s, adds, l, t);
    var n := |u.admins|;
    SuccessiveQuorumsMeet(n, n + 1);
    SuccessiveQuorumsMeet(n, n);
    QuorumsShare(n, n + 1, a, b);
    QuorumsShare(n, n, a, c);
  }

  /**
   Along a run from the ceremony's three slots the quorums of all rosters of up to five slots meet
   those of the first.
   */
  lemma GenesisQuorumsMeet(m: nat)
    requires 3 <= m
    ensures AlwaysMeet(3, m) <==> m <= 5
    ensures Threshold(3) == 2
  {
    QuorumsMeetIff(3, m);
  }

  /** Leaves are compared within a record only: an addition may repeat the leaves of an old slot. */
  lemma LeavesMayRepeat(s: Authority, add: Addition, l: Limits)
    requires Accepts(s, add, l)
    ensures Accepts(s, add.(admin := s.admins[0].(idx := add.admin.idx)), l)
  {
    assert s.admins[0] in s.admins;
  }

  // ---------------------------------------------------------------- what the state hash binds

  lemma AtomsInjective(a: seq<Bytes>, b: seq<Bytes>)
    requires Atoms(a) == Atoms(b)
    ensures a == b
  {
    assert |Atoms(a)| == |Atoms(b)|;
    assert forall i :: 0 <= i < |a| ==> Atoms(a)[i] == Atom(a[i]) && Atoms(b)[i] == Atom(b[i]);
  }

  lemma AdminTreeInjective(a: AdminRecord, b: AdminRecord)
    requires AdminTree(a) == AdminTree(b)
    ensures a == b
  {
    hide ListOf, Items, IntToAtom, Atoms;
    var x, y := [IntTree(a.idx), ListOf(Atoms(a.leaves)), IntTree(a.mWithin)],
      [IntTree(b.idx), ListOf(Atoms(b.leaves)), IntTree(b.mWithin)];
    ItemsOfList(x);
    ItemsOfList(y);
    assert x[0] == y[0] && x[1] == y[1] && x[2] == y[2];
    ItemsOfList(Atoms(a.leaves));
    ItemsOfList(Atoms(b.leaves));
    AtomsInjective(a.leaves, b.leaves);
    IntTreeInjective(a.idx, b.idx);
    IntTreeInjective(a.mWithin, b.mWithin);
  }

  /** One roster hash, one roster, or there is a collision. */
  lemma AdminsHashBinds(a: seq<AdminRecord>, b: seq<AdminRecord>)
    requires AdminsHash(a) == AdminsHash(b)
    ensures a == b || Collision(ListOf(AdminTrees(a)), ListOf(AdminTrees(b)))
  {
    hide ListOf, TreeHash, AdminTree, Collision;
    FieldsBind(AdminTrees(a), AdminTrees(b));
    if AdminTrees(a) == AdminTrees(b) {
      assert |AdminTrees(a)| == |AdminTrees(b)|;
      forall i | 0 <= i < |a|
        ensures a[i] == b[i]
      {
        assert AdminTrees(a)[i] == AdminTrees(b)[i];
        AdminTreeInjective(a[i], b[i]);
      }
    }
  }

  lemma PendingOpTreeInjective(p: PendingOp, q: PendingOp)
    requires PendingOpTree(p) == PendingOpTree(q)
    ensures p == q
  {
    hide ListOf, Items, IntToAtom;
    var x, y := [IntTree(p.idx), IntTree(p.kind), Atom(p.target), IntTree(p.activatesAt)],
      [IntTree(q.idx), IntTree(q.kind), Atom(q.target), IntTree(q.activatesAt)];
    ItemsOfList(x);
    ItemsOfList(y);
    assert x[0] == y[0] && x[1] == y[1] && x[2] == y[2] && x[3] == y[3];
    IntTreeInjective(p.idx, q.idx);
    IntTreeInjective(p.kind, q.kind);
    IntTreeInjective(p.activatesAt, q.activatesAt);
  }

  /** One hash of pending operations, one list of them, or there is a collision. */
  lemma PendingOpsHashBinds(a: seq<PendingOp>, b: seq<PendingOp>)
    requires PendingOpsHash(a) == PendingOpsHash(b)
    ensures a == b || Collision(ListOf(PendingOpTrees(a)), ListOf(PendingOpTrees(b)))
  {
    hide ListOf, TreeHash, PendingOpTree, Collision;
    FieldsBind(PendingOpTrees(a), PendingOpTrees(b));
    if PendingOpTrees(a) == PendingOpTrees(b) {
      assert |PendingOpTrees(a)| == |PendingOpTrees(b)|;
      forall i | 0 <= i < |a|
        ensures a[i] == b[i]
      {
        assert PendingOpTrees(a)[i] == PendingOpTrees(b)[i];
        PendingOpTreeInjective(a[i], b[i]);
      }
    }
  }

  /** One state hash, one policy root, roster, list of pending operations and version, or there is a collision. */
  lemma StateHashBinds(root: Bytes, a: seq<AdminRecord>, ops: seq<PendingOp>, version: int,
                       root': Bytes, a': seq<AdminRecord>, ops': seq<PendingOp>, version': int)
    requires StateHash(root, AdminsHash(a), PendingOpsHash(ops), version)
          == StateHash(root', AdminsHash(a'), PendingOpsHash(ops'), version')
    ensures
      || (root, a, ops, version) == (root', a', ops', version')
      || Collision(ListOf(AdminTrees(a)), ListOf(AdminTrees(a')))
      || Collision(ListOf(PendingOpTrees(ops)), ListOf(PendingOpTrees(ops')))
      || Collision(ListOf(StateFields(root, AdminsHash(a), PendingOpsHash(ops), version)),
                   ListOf(StateFields(root', AdminsHash(a'), PendingOpsHash(ops'), version')))
  {
    hide ListOf, TreeHash, Collision, AdminTrees, AdminsHash, PendingOpTrees, PendingOpsHash, IntToAtom;
    var x, y := StateFields(root, AdminsHash(a), PendingOpsHash(ops), version),
        StateFields(root', AdminsHash(a'), PendingOpsHash(ops'), version');
    FieldsBind(x, y);
    if x == y {
      assert x[0] == y[0] && x[1] == y[1] && x[2] == y[2] && x[3] == y[3];
      IntTreeInjective(version, version');
      AdminsHashBinds(a, a');
      PendingOpsHashBinds(ops, ops');
    }
  }
}
