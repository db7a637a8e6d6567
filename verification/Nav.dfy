/**
 The collection NAV registry: a list of appraised values, updated in place, of which only the root is on chain.
 */
module Nav {
  import opened Hashing
  import opened Results
  import opened Clvm
  import opened Currying
  import opened Sequences

  datatype Entry = Entry(id: Bytes, nav: int)

  const UINT64 := 0x1_0000_0000_0000_0000

  predicate GoodNav(nav: int) {
    0 < nav < UINT64
  }

  function Ids(es: seq<Entry>): seq<Bytes> {
    seq(|es|, i requires 0 <= i < |es| => es[i].id)
  }

  /** What the driver demands of an entry list. */
  predicate Normal(es: seq<Entry>) {
    && (forall i :: 0 <= i < |es| ==> |es[i].id| == 32 && GoodNav(es[i].nav))
    && Distinct(Ids(es))
  }

  // ---------------------------------------------------------------- the list operations

  /** The driver overwrites the entry of the collection, or puts a new one in front. */
  function Upsert(es: seq<Entry>, id: Bytes, nav: int): seq<Entry> {
    if id in Ids(es) then Overwrite(es, id, nav) else [Entry(id, nav)] + es
  }

  /** The registry puzzle overwrites likewise, but puts a new entry at the end. */
  function PuzzleUpsert(es: seq<Entry>, id: Bytes, nav: int): seq<Entry> {
    if es == [] then [Entry(id, nav)]
    else if es[0].id == id then [Entry(id, nav)] + es[1..]
    else [es[0]] + PuzzleUpsert(es[1..], id, nav)
  }

  function Overwrite(es: seq<Entry>, id: Bytes, nav: int): seq<Entry> {
    seq(|es|, i requires 0 <= i < |es| => if es[i].id == id then Entry(id, nav) else es[i])
  }

  /** The list as a map. */
  function AsMap(es: seq<Entry>): map<Bytes, int> {
    if es == [] then map[] else AsMap(es[1..])[es[0].id := es[0].nav]
  }

  method NormaliseNavEntries(entries: seq<Entry>) returns (r: Result<seq<Entry>>)
    ensures r.Ok? <==> Normal(entries)
    ensures r.Ok? ==> r.value == entries
  {
    var seen: set<Bytes> := {};
    var out: seq<Entry> := [];
    for i := 0 to |entries|
      invariant out == entries[..i]
      invariant seen == set j | 0 <= j < i :: entries[j].id
      invariant Normal(entries[..i])
    {
      var e := entries[i];
      assert forall j :: 0 <= j < i ==> entries[..i][j] == entries[j] && Ids(entries)[j] == entries[j].id;
      if |e.id| != 32 {
        return Err("collection id must be 32 bytes");
      }
      if e.id in seen {
        assert Ids(entries)[i] == e.id;
        return Err("duplicate collection id");
      }
      if e.nav <= 0 {
        return Err("nav_value_mojos must be positive");
      }
      if e.nav >= 0x1_0000_0000_0000_0000 {
        return Err("nav_value_mojos must fit uint64");
      }
      seen := seen + {e.id};
      out := out + [e];
      NormalStep(entries, i);
    }
    assert entries[..|entries|] == entries;
    return Ok(out);
  }

  lemma NormalStep(es: seq<Entry>, i: nat)
    requires i < |es| && Normal(es[..i]) && |es[i].id| == 32 && GoodNav(es[i].nav)
    requires forall j :: 0 <= j < i ==> es[j].id != es[i].id
    ensures Normal(es[..i + 1])
  {
    var ids := Ids(es[..i + 1]);
    forall j, k | 0 <= j < k <= i
      ensures ids[j] != ids[k]
    {
      assert k < i ==> Ids(es[..i])[j] != Ids(es[..i])[k];
    }
  }

  method UpsertNavEntry(entries: seq<Entry>, id: Bytes, nav: int) returns (r: Result<seq<Entry>>)
    ensures r.Ok? <==> Normal(entries) && |id| == 32 && GoodNav(nav)
    ensures r.Ok? ==> r.value == Upsert(entries, id, nav)
  {
    var normal := NormaliseNavEntries(entries);
    if normal.Err? {
      return normal;
    }
    var current := normal.value;
    if |id| != 32 {
      return Err("collection_id_canon must be 32 bytes");
    }
    if nav <= 0 || nav >= 0x1_0000_0000_0000_0000 {
      return Err("nav_value_mojos must be positive and fit uint64");
    }
    for i := 0 to |current|
      invariant id !in Ids(entries[..i])
    {
      if current[i].id == id {
        assert Ids(entries)[i] == id;
        OverwriteOne(entries, i, nav);
        current := current[i := Entry(id, nav)];
        return Ok(current);
      }
      assert Ids(entries[..i + 1]) == Ids(entries[..i]) + [current[i].id];
    }
    assert entries[..|entries|] == entries;
    return Ok([Entry(id, nav)] + current);
  }

  /** Ids are distinct, so one slot is overwritten. */
  lemma OverwriteOne(es: seq<Entry>, i: nat, nav: int)
    requires Distinct(Ids(es)) && i < |es|
    ensures Overwrite(es, es[i].id, nav) == es[i := Entry(es[i].id, nav)]
  {
    var ids := Ids(es);
    forall j | 0 <= j < |es| && j != i
      ensures es[j].id != es[i].id
    {
      assert ids[j] != ids[i];
    }
  }

  method NavValueForCollection(entries: seq<Entry>, id: Bytes) returns (r: Result<int>)
    ensures r.Ok? <==> Normal(entries) && |id| == 32 && id in AsMap(entries)
    ensures r.Ok? ==> r.value == AsMap(entries)[id]
  {
    var normal := NormaliseNavEntries(entries);
    if normal.Err? {
      return Err(normal.reason);
    }
    if |id| != 32 {
      return Err("collection_id_canon must be 32 bytes");
    }
    AsMapDomain(entries);
    for i := 0 to |entries|
      invariant id !in Ids(entries[..i])
    {
      if entries[i].id == id {
        AsMapAt(entries, i);
        return Ok(entries[i].nav);
      }
      assert Ids(entries[..i + 1]) == Ids(entries[..i]) + [entries[i].id];
    }
    assert entries[..|entries|] == entries;
    return Err("collection_id_canon is not present in registry entries");
  }

  lemma {:induction false} AsMapDomain(es: seq<Entry>)
    ensures forall id :: id in AsMap(es) <==> id in Ids(es)
  {
    if es != [] {
      AsMapDomain(es[1..]);
      assert Ids(es) == [es[0].id] + Ids(es[1..]);
    }
  }

  lemma {:induction false} AsMapAt(es: seq<Entry>, i: nat)
    requires i < |es| && Distinct(Ids(es))
    ensures es[i].id in AsMap(es) && AsMap(es)[es[i].id] == es[i].nav
  {
    assert Ids(es) == [es[0].id] + Ids(es[1..]);
    if i > 0 {
      DistinctSplits([es[0].id], Ids(es[1..]));
      AsMapAt(es[1..], i - 1);
      assert Ids(es)[0] != Ids(es)[i];
    }
  }

  // ---------------------------------------------------------------- what an update does

  lemma {:induction false} AsMapOverwrite(es: seq<Entry>, id: Bytes, nav: int)
    ensures AsMap(Overwrite(es, id, nav)) == if id in Ids(es) then AsMap(es)[id := nav] else AsMap(es)
  {
    if es != [] {
      AsMapOverwrite(es[1..], id, nav);
      OverwriteStep(es, id, nav);
    }
  }

  lemma OverwriteStep(es: seq<Entry>, id: Bytes, nav: int)
    requires es != []
    ensures Ids(es) == [es[0].id] + Ids(es[1..])
    ensures AsMap(Overwrite(es, id, nav))
         == AsMap(Overwrite(es[1..], id, nav))[es[0].id := if es[0].id == id then nav else es[0].nav]
  {
    assert Overwrite(es, id, nav)[1..] == Overwrite(es[1..], id, nav);
  }

  /** The list stays normal, its order stays, a new collection comes first, and the map changes at one key. */
  lemma UpsertActs(es: seq<Entry>, id: Bytes, nav: int)
    requires Normal(es) && |id| == 32 && GoodNav(nav)
    ensures Normal(Upsert(es, id, nav))
    ensures Ids(Upsert(es, id, nav)) == if id in Ids(es) then Ids(es) else [id] + Ids(es)
    ensures AsMap(Upsert(es, id, nav)) == AsMap(es)[id := nav]
  {
    var up := Upsert(es, id, nav);
    if id in Ids(es) {
      AsMapOverwrite(es, id, nav);
      assert Ids(up) == Ids(es);
    } else {
      assert up[1..] == es;
      assert Ids(up) == [id] + Ids(es);
      DistinctSplits([id], Ids(es));
    }
  }

  lemma {:induction false} PuzzleIds(es: seq<Entry>, id: Bytes, nav: int)
    ensures Ids(PuzzleUpsert(es, id, nav)) == if id in Ids(es) then Ids(es) else Ids(es) + [id]
  {
    if es != [] {
      assert Ids(es) == [es[0].id] + Ids(es[1..]);
      var up := PuzzleUpsert(es, id, nav);
      assert Ids(up) == [up[0].id] + Ids(up[1..]);
      if es[0].id != id {
        PuzzleIds(es[1..], id, nav);
        assert up[1..] == PuzzleUpsert(es[1..], id, nav);
      } else {
        assert up[1..] == es[1..];
      }
    }
  }

  lemma {:induction false} PuzzleMap(es: seq<Entry>, id: Bytes, nav: int)
    requires Distinct(Ids(es))
    ensures AsMap(PuzzleUpsert(es, id, nav)) == AsMap(es)[id := nav]
    ensures id in Ids(es) ==> PuzzleUpsert(es, id, nav) == Overwrite(es, id, nav)
    ensures id !in Ids(es) ==> PuzzleUpsert(es, id, nav) == es + [Entry(id, nav)]
  {
    if es == [] {
      assert [Entry(id, nav)][1..] == [];
    } else {
      assert Ids(es) == [es[0].id] + Ids(es[1..]);
      DistinctSplits([es[0].id], Ids(es[1..]));
      if es[0].id == id {
        PuzzleMapHead(es, nav);
      } else {
        PuzzleMap(es[1..], id, nav);
        PuzzleMapTail(es, id, nav);
      }
    }
  }

  lemma PuzzleMapHead(es: seq<Entry>, nav: int)
    requires Distinct(Ids(es)) && es != []
    ensures AsMap(PuzzleUpsert(es, es[0].id, nav)) == AsMap(es)[es[0].id := nav]
    ensures PuzzleUpsert(es, es[0].id, nav) == Overwrite(es, es[0].id, nav) && es[0].id in Ids(es)
  {
    hide Distinct;
    assert PuzzleUpsert(es, es[0].id, nav)[1..] == es[1..];
    assert Ids(es)[0] == es[0].id;
    OverwriteOne(es, 0, nav);
  }

  lemma PuzzleMapTail(es: seq<Entry>, id: Bytes, nav: int)
    requires es != [] && es[0].id != id
    ensures AsMap(PuzzleUpsert(es, id, nav)) == AsMap(PuzzleUpsert(es[1..], id, nav))[es[0].id := es[0].nav]
    ensures PuzzleUpsert(es, id, nav) == [es[0]] + PuzzleUpsert(es[1..], id, nav)
    ensures Overwrite(es, id, nav) == [es[0]] + Overwrite(es[1..], id, nav)
    ensures AsMap(es)[id := nav] == AsMap(es[1..])[id := nav][es[0].id := es[0].nav]
  {
    assert PuzzleUpsert(es, id, nav)[1..] == PuzzleUpsert(es[1..], id, nav);
  }

  lemma PuzzleUpsertActs(es: seq<Entry>, id: Bytes, nav: int)
    requires Normal(es) && |id| == 32 && GoodNav(nav)
    ensures Normal(PuzzleUpsert(es, id, nav))
    ensures AsMap(PuzzleUpsert(es, id, nav)) == AsMap(es)[id := nav]
  {
    PuzzleIds(es, id, nav);
    PuzzleMap(es, id, nav);
    DistinctSplits(Ids(es), [id]);
  }

  /** The driver computes the list the puzzle installs exactly when the collection is listed or the list is empty. */
  lemma DriverMeetsPuzzle(es: seq<Entry>, id: Bytes, nav: int)
    requires Normal(es)
    ensures Upsert(es, id, nav) == PuzzleUpsert(es, id, nav) <==> id in Ids(es) || es == []
  {
    PuzzleMap(es, id, nav);
    if id !in Ids(es) && es != [] {
      assert Upsert(es, id, nav)[0].id == id && PuzzleUpsert(es, id, nav)[0] == es[0];
      assert es[0].id == Ids(es)[0];
    }
  }

  // ---------------------------------------------------------------- the root

  function EntryTree(e: Entry): Tree {
    Pair(Atom(e.id), IntTree(e.nav))
  }

  function EntryTrees(es: seq<Entry>): seq<Tree> {
    seq(|es|, i requires 0 <= i < |es| => EntryTree(es[i]))
  }

  function EntriesTree(es: seq<Entry>): Tree {
    ListOf(EntryTrees(es))
  }

  function NavRoot(es: seq<Entry>): Bytes32 {
    TreeHash(EntriesTree(es))
  }

  /** Lists with one root are equal, or there is a collision. */
  lemma NavRootBinds(es: seq<Entry>, fs: seq<Entry>)
    ensures NavRoot(es) == NavRoot(fs) <==>
        es == fs || (NavRoot(es) == NavRoot(fs) && Collision(EntriesTree(es), EntriesTree(fs)))
  {
    hide TreeHash, ListOf, Collision, IntTree;
    if NavRoot(es) == NavRoot(fs) {
      FieldsBind(EntryTrees(es), EntryTrees(fs));
      if EntryTrees(es) == EntryTrees(fs) {
        EntryTreesInjective(es, fs);
      }
    }
  }

  lemma EntryTreesInjective(es: seq<Entry>, fs: seq<Entry>)
    requires EntryTrees(es) == EntryTrees(fs)
    ensures es == fs
  {
    hide IntTree;
    assert |EntryTrees(es)| == |EntryTrees(fs)|;
    forall i | 0 <= i < |es|
      ensures es[i] == fs[i]
    {
      assert EntryTrees(es)[i] == EntryTrees(fs)[i];
      IntTreeInjective(es[i].nav, fs[i].nav);
    }
  }

  // ---------------------------------------------------------------- spends

  const NAV_REGISTRY_MOD: Tree
  const NAV_REGISTRY_TAG := 0x4E41_5652
  const NAV_EVIDENCE_TAG := 0x4E41_5645

  datatype Registry = Registry(selfModHash: Bytes32, govPubkey: Bytes, root: Bytes32, version: int)

  function InnerPuzzleHash(s: Registry): Bytes32 {
    TreeHash(Curry(NAV_REGISTRY_MOD, [Atom(s.selfModHash), Atom(s.govPubkey), Atom(s.root), IntTree(s.version)]))
  }

  /** One inner puzzle hash, one registry, or there is a collision. */
  lemma InnerPuzzleHashBinds(s: Registry, t: Registry)
    requires InnerPuzzleHash(s) == InnerPuzzleHash(t)
    ensures
      var a := [Atom(s.selfModHash), Atom(s.govPubkey), Atom(s.root), IntTree(s.version)];
      var b := [Atom(t.selfModHash), Atom(t.govPubkey), Atom(t.root), IntTree(t.version)];
      s == t || Collision(Curry(NAV_REGISTRY_MOD, a), Curry(NAV_REGISTRY_MOD, b))
  {
    hide TreeHash, Curry, IntToAtom, Collision;
    var a := [Atom(s.selfModHash), Atom(s.govPubkey), Atom(s.root), IntTree(s.version)];
    var b := [Atom(t.selfModHash), Atom(t.govPubkey), Atom(t.root), IntTree(t.version)];
    TreeHashBinds(Curry(NAV_REGISTRY_MOD, a), Curry(NAV_REGISTRY_MOD, b));
    if Curry(NAV_REGISTRY_MOD, a) == Curry(NAV_REGISTRY_MOD, b) {
      UncurryIsInverse(Curry(NAV_REGISTRY_MOD, a), NAV_REGISTRY_MOD, a);
      UncurryIsInverse(Curry(NAV_REGISTRY_MOD, b), NAV_REGISTRY_MOD, b);
      assert a[0] == b[0] && a[1] == b[1] && a[2] == b[2] && a[3] == b[3];
      IntTreeInjective(s.version, t.version);
    }
  }

  function NavMessageFields(id: Bytes, nav: int, oldRoot: Bytes, newRoot: Bytes, version: int): seq<Tree> {
    [IntTree(NAV_REGISTRY_TAG), Atom(id), IntTree(nav), Atom(oldRoot), Atom(newRoot), IntTree(version)]
  }

  function NavEvidenceFields(id: Bytes, nav: int, root: Bytes, version: int): seq<Tree> {
    [IntTree(NAV_EVIDENCE_TAG), Atom(id), IntTree(nav), Atom(root), IntTree(version)]
  }

  datatype Update = Update(newEntries: seq<Entry>, next: Registry, innerPuzzleHash: Bytes32, message: Bytes32)
  datatype Evidence = Evidence(nav: int, innerPuzzleHash: Bytes32, message: Bytes32)

  /** The state is one of this module's registries, and the caller's list is its preimage. */
  predicate Presents(s: Registry, entries: seq<Entry>, amount: int) {
    && s.selfModHash == TreeHash(NAV_REGISTRY_MOD)
    && Normal(entries) && NavRoot(entries) == s.root
    && amount > 0 && |s.govPubkey| == 48
  }

  function After(s: Registry, entries: seq<Entry>, id: Bytes, nav: int): Registry {
    s.(root := NavRoot(Upsert(entries, id, nav)), version := s.version + 1)
  }

  method BuildNavUpdate(s: Registry, id: Bytes, nav: int, entries: seq<Entry>, amount: int) returns (r: Result<Update>)
    ensures r.Ok? <==> Presents(s, entries, amount) && |id| == 32 && GoodNav(nav) && s.version + 1 >= 0
    ensures r.Ok? ==>
              && r.value.newEntries == Upsert(entries, id, nav)
              && r.value.next == After(s, entries, id, nav)
              && r.value.innerPuzzleHash == InnerPuzzleHash(r.value.next)
              && r.value.message ==
                 TreeHash(ListOf(NavMessageFields(id, nav, s.root, r.value.next.root, s.version + 1)))
  {
    hide TreeHash, Upsert, ListOf, EntriesTree, NavMessageFields, Normal;
    if s.selfModHash != TreeHash(NAV_REGISTRY_MOD) {
      return Err("current.self_mod_hash does not match collection NAV registry mod");
    }
    var normal := NormaliseNavEntries(entries);
    if normal.Err? {
      return Err(normal.reason);
    }
    if NavRoot(entries) != s.root {
      return Err("current_entries root does not match registry state");
    }
    if amount <= 0 {
      return Err("my_amount must be positive");
    }
    var upserted := UpsertNavEntry(entries, id, nav);
    if upserted.Err? {
      return Err(upserted.reason);
    }
    if s.version + 1 < 0 {
      return Err("new_registry_version must be non-negative");
    }
    if |s.govPubkey| != 48 {
      return Err("gov_pubkey must be 48 bytes");
    }
    var next := s.(root := NavRoot(upserted.value), version := s.version + 1);
    return Ok(Update(upserted.value, next, InnerPuzzleHash(next),
                     TreeHash(ListOf(NavMessageFields(id, nav, s.root, next.root, next.version)))));
  }

  /** Reports the listed value; the state is recreated as it is. */
  method BuildNavRead(s: Registry, id: Bytes, entries: seq<Entry>, amount: int) returns (r: Result<Evidence>)
    ensures r.Ok? <==> Presents(s, entries, amount) && |id| == 32 && id in AsMap(entries) && s.version >= 0
    ensures r.Ok? ==>
              && r.value.nav == AsMap(entries)[id]
              && r.value.innerPuzzleHash == InnerPuzzleHash(s)
              && r.value.message == TreeHash(ListOf(NavEvidenceFields(id, r.value.nav, s.root, s.version)))
  {
    hide TreeHash, ListOf, EntriesTree, NavEvidenceFields, AsMap, Normal;
    if s.selfModHash != TreeHash(NAV_REGISTRY_MOD) {
      return Err("current.self_mod_hash does not match collection NAV registry mod");
    }
    var normal := NormaliseNavEntries(entries);
    if normal.Err? {
      return Err(normal.reason);
    }
    if NavRoot(entries) != s.root {
      return Err("current_entries root does not match registry state");
    }
    if amount <= 0 {
      return Err("my_amount must be positive");
    }
    var found := NavValueForCollection(entries, id);
    if found.Err? {
      return Err(found.reason);
    }
    if s.version < 0 {
      return Err("registry_version must be non-negative");
    }
    if |s.govPubkey| != 48 {
      return Err("gov_pubkey must be 48 bytes");
    }
    return Ok(Evidence(found.value, InnerPuzzleHash(s),
                       TreeHash(ListOf(NavEvidenceFields(id, found.value, s.root, s.version)))));
  }
}
