/**
 Whole runs of the NAV registry: the list acts as a map, and its root chains from update to update.
 */
module NavRuns {
  import opened Hashing
  import opened Results
  import opened Clvm
  import opened Nav

  /** Who computes the new list: the driver in advance, or the puzzle on chain. */
  datatype Side = Driver | Puzzle

  function UpsertOn(side: Side, es: seq<Entry>, u: Entry): seq<Entry> {
    if side.Driver? then Upsert(es, u.id, u.nav) else PuzzleUpsert(es, u.id, u.nav)
  }

  predicate GoodUpdates(us: seq<Entry>) {
    forall i :: 0 <= i < |us| ==> |us[i].id| == 32 && GoodNav(us[i].nav)
  }

  predicate OneCollectionNamed(us: seq<Entry>) {
    forall i :: 0 <= i < |us| ==> us[i].id == us[0].id
  }

  /** The list after a sequence of updates. */
  function Play(side: Side, es: seq<Entry>, us: seq<Entry>): seq<Entry> {
    if us == [] then es else UpsertOn(side, Play(side, es, us[..|us| - 1]), us[|us| - 1])
  }

  /** The reference: a map that remembers the last value of every collection. */
  function LastValues(m: map<Bytes, int>, us: seq<Entry>): map<Bytes, int> {
    if us == [] then m else LastValues(m, us[..|us| - 1])[us[|us| - 1].id := us[|us| - 1].nav]
  }

  /** On both sides the list stays free of duplicates and looks up as the reference map does. */
  lemma {:induction false} PlayActsAsMap(side: Side, es: seq<Entry>, us: seq<Entry>)
    requires Normal(es) && GoodUpdates(us)
    ensures Normal(Play(side, es, us))
    ensures AsMap(Play(side, es, us)) == LastValues(AsMap(es), us)
  {
    hide Normal, AsMap, Upsert, PuzzleUpsert;
    if us != [] {
      var n := |us| - 1;
      PlayActsAsMap(side, es, us[..n]);
      UpsertActs(Play(side, es, us[..n]), us[n].id, us[n].nav);
      PuzzleUpsertActs(Play(side, es, us[..n]), us[n].id, us[n].nav);
    }
  }

  // ---------------------------------------------------------------- the order of the keys

  /** Where a collection was first updated; the length of the run if never. */
  function FirstUpdate(us: seq<Entry>, id: Bytes): (k: nat)
    ensures k <= |us|
    ensures k < |us| ==> us[k].id == id
    ensures forall i :: 0 <= i < k ==> us[i].id != id
  {
    if us == [] then 0
    else
      var n := |us| - 1;
      var k := FirstUpdate(us[..n], id);
      if k < n || us[n].id == id then k else |us|
  }

  /** Both were updated, `a` first. */
  predicate Older(us: seq<Entry>, a: Bytes, b: Bytes) {
    FirstUpdate(us, a) < FirstUpdate(us, b) < |us|
  }

  /** Later first updates stand further to the front. */
  predicate NewestFirst(us: seq<Entry>, ids: seq<Bytes>) {
    forall i, j :: 0 <= i < j < |ids| ==> Older(us, ids[j], ids[i])
  }

  predicate OldestFirst(us: seq<Entry>, ids: seq<Bytes>) {
    forall i, j :: 0 <= i < j < |ids| ==> Older(us, ids[i], ids[j])
  }

  /** The ids are those that were updated. */
  ghost predicate Updated(us: seq<Entry>, ids: seq<Bytes>) {
    forall id :: id in ids <==> FirstUpdate(us, id) < |us|
  }

  function FirstUpdateAfter(past: seq<Entry>, u: Entry, id: Bytes): nat {
    if FirstUpdate(past, id) < |past| then FirstUpdate(past, id) else if id == u.id then |past| else |past| + 1
  }

  /** The driver keeps the keys in reverse order of first insertion, the puzzle in order of first insertion. */
  lemma {:induction false} KeyOrder(us: seq<Entry>)
    requires GoodUpdates(us)
    ensures Updated(us, Ids(Play(Driver, [], us))) && NewestFirst(us, Ids(Play(Driver, [], us)))
    ensures Updated(us, Ids(Play(Puzzle, [], us))) && OldestFirst(us, Ids(Play(Puzzle, [], us)))
  {
    hide AsMap, FirstUpdate;
    if us != [] {
      var n := |us| - 1;
      var past, u := us[..n], us[n];
      assert us == past + [u];
      KeyOrder(past);
      var d, p := Play(Driver, [], past), Play(Puzzle, [], past);
      PlayActsAsMap(Driver, [], past);
      UpsertActs(d, u.id, u.nav);
      PuzzleIds(p, u.id, u.nav);
      NewestFirstStep(past, u, Ids(d));
      OldestFirstStep(past, u, Ids(p));
    }
  }

  lemma UpdatedStep(past: seq<Entry>, u: Entry, ids: seq<Bytes>, later: seq<Bytes>)
    requires Updated(past, ids) && forall id :: id in later <==> id == u.id || id in ids
    ensures Updated(past + [u], later)
  {
    hide FirstUpdate;
    FirstUpdatesStay(past, u);
  }

  lemma NewestFirstStep(past: seq<Entry>, u: Entry, d: seq<Bytes>)
    requires Updated(past, d) && NewestFirst(past, d)
    ensures var d' := if u.id in d then d else [u.id] + d; Updated(past + [u], d') && NewestFirst(past + [u], d')
  {
    hide FirstUpdate, Updated, NewestFirst;
    var d' := if u.id in d then d else [u.id] + d;
    assert forall id :: id in d' <==> id == u.id || id in d;
    UpdatedStep(past, u, d, d');
    SameOrder(past, u, d);
    if u.id in d {
      assert d' == d;
    } else {
      NewestInFront(past, u, d);
      assert d' == [u.id] + d;
    }
    assert NewestFirst(past + [u], d');
  }

  lemma SameOrder(past: seq<Entry>, u: Entry, d: seq<Bytes>)
    requires Updated(past, d) && NewestFirst(past, d)
    ensures NewestFirst(past + [u], d)
  {
    hide Older, Updated;
    forall i, j | 0 <= i < j < |d|
      ensures Older(past + [u], d[j], d[i])
    {
      StaysOlder(past, u, d, j, i);
    }
  }

  lemma StaysOlder(past: seq<Entry>, u: Entry, ids: seq<Bytes>, i: nat, j: nat)
    requires Updated(past, ids) && i < |ids| && j < |ids|
    ensures Older(past + [u], ids[i], ids[j]) <==> Older(past, ids[i], ids[j])
  {
    hide FirstUpdate, Updated;
    UpdatedStays(past, u, ids, i);
    UpdatedStays(past, u, ids, j);
  }

  /** A collection that was not updated before is younger than the others. */
  lemma NewIsYounger(past: seq<Entry>, u: Entry, ids: seq<Bytes>, i: nat)
    requires Updated(past, ids) && u.id !in ids && i < |ids|
    ensures Older(past + [u], ids[i], u.id)
  {
    hide FirstUpdate, Updated;
    UpdatedStays(past, u, ids, i);
    LastIsNew(past, u, ids);
  }

  lemma NewestInFront(past: seq<Entry>, u: Entry, d: seq<Bytes>)
    requires Updated(past, d) && NewestFirst(past + [u], d) && u.id !in d
    ensures NewestFirst(past + [u], [u.id] + d)
  {
    hide Older, Updated;
    var d' := [u.id] + d;
    forall i, j | 0 <= i < j < |d'|
      ensures Older(past + [u], d'[j], d'[i])
    {
      assert d'[j] == d[j - 1] && (i > 0 ==> d'[i] == d[i - 1]);
      NewIsYounger(past, u, d, j - 1);
    }
  }

  lemma UpdatedStays(past: seq<Entry>, u: Entry, ids: seq<Bytes>, i: nat)
    requires Updated(past, ids) && i < |ids|
    ensures FirstUpdate(past + [u], ids[i]) == FirstUpdate(past, ids[i]) < |past|
  {
    hide FirstUpdate;
    FirstUpdateStays(past, u, ids[i]);
    assert ids[i] in ids;
  }

  lemma FirstUpdateStays(past: seq<Entry>, u: Entry, id: Bytes)
    ensures FirstUpdate(past + [u], id) == FirstUpdateAfter(past, u, id)
  {
    assert (past + [u])[..|past|] == past;
  }

  lemma OldestFirstStep(past: seq<Entry>, u: Entry, p: seq<Bytes>)
    requires Updated(past, p) && OldestFirst(past, p)
    ensures var p' := if u.id in p then p else p + [u.id]; Updated(past + [u], p') && OldestFirst(past + [u], p')
  {
    hide FirstUpdate, Updated, OldestFirst;
    var p' := if u.id in p then p else p + [u.id];
    assert forall id :: id in p' <==> id == u.id || id in p;
    UpdatedStep(past, u, p, p');
    SameOldestOrder(past, u, p);
    if u.id in p {
      assert p' == p;
    } else {
      NewestAtEnd(past, u, p);
      assert p' == p + [u.id];
    }
    assert OldestFirst(past + [u], p');
  }

  lemma SameOldestOrder(past: seq<Entry>, u: Entry, p: seq<Bytes>)
    requires Updated(past, p) && OldestFirst(past, p)
    ensures OldestFirst(past + [u], p)
  {
    hide Older, Updated;
    forall i, j | 0 <= i < j < |p|
      ensures Older(past + [u], p[i], p[j])
    {
      StaysOlder(past, u, p, i, j);
    }
  }

  lemma NewestAtEnd(past: seq<Entry>, u: Entry, p: seq<Bytes>)
    requires Updated(past, p) && OldestFirst(past + [u], p) && u.id !in p
    ensures OldestFirst(past + [u], p + [u.id])
  {
    hide Older, Updated;
    var p' := p + [u.id];
    forall i, j | 0 <= i < j < |p'|
      ensures Older(past + [u], p'[i], p'[j])
    {
      assert p'[i] == p[i] && (j < |p| ==> p'[j] == p[j]);
      NewIsYounger(past, u, p, i);
    }
  }

  lemma LastIsNew(past: seq<Entry>, u: Entry, ids: seq<Bytes>)
    requires Updated(past, ids) && u.id !in ids
    ensures FirstUpdate(past + [u], u.id) == |past|
  {
    hide FirstUpdate;
    FirstUpdateStays(past, u, u.id);
  }

  lemma FirstUpdatesStay(past: seq<Entry>, u: Entry)
    ensures forall id :: FirstUpdate(past + [u], id) == FirstUpdateAfter(past, u, id)
  {
    assert (past + [u])[..|past|] == past;
  }

  /**
   The list the driver carries forward is the list the puzzle commits to exactly as long as one collection at most has
   been updated: the two insert at opposite ends.
   */
  lemma SidesAgreeIffOneCollection(us: seq<Entry>)
    requires GoodUpdates(us)
    ensures Play(Driver, [], us) == Play(Puzzle, [], us) <==> OneCollectionNamed(us)
  {
    hide Play, FirstUpdate, Normal, AsMap;
    var d, p := Play(Driver, [], us), Play(Puzzle, [], us);
    KeyOrder(us);
    if OneCollectionNamed(us) {
      OneCollection(us);
    } else {
      var i :| 0 <= i < |us| && us[i].id != us[0].id;
      FirstUpdateHere(us, 0);
      FirstUpdateHere(us, i);
      TwoMembers(Ids(d), us[0].id, us[i].id);
      TwoMembers(Ids(p), us[0].id, us[i].id);
      assert FirstUpdate(us, Ids(d)[1]) < FirstUpdate(us, Ids(d)[0]);
      assert FirstUpdate(us, Ids(p)[0]) < FirstUpdate(us, Ids(p)[1]);
    }
  }

  lemma TwoMembers(ids: seq<Bytes>, a: Bytes, b: Bytes)
    requires a in ids && b in ids && a != b
    ensures |ids| >= 2
  {
  }

  lemma FirstUpdateHere(us: seq<Entry>, i: nat)
    requires i < |us|
    ensures FirstUpdate(us, us[i].id) < |us|
  {
    assert FirstUpdate(us, us[i].id) <= i || us[i].id != us[i].id;
  }

  lemma {:induction false} OneCollection(us: seq<Entry>)
    requires OneCollectionNamed(us)
    ensures Play(Driver, [], us) == Play(Puzzle, [], us)
    ensures us == [] ==> Play(Driver, [], us) == []
    ensures us != [] ==> Play(Driver, [], us) == [us[|us| - 1]]
  {
    if us != [] {
      var n := |us| - 1;
      OneCollection(us[..n]);
      var before := Play(Driver, [], us[..n]);
      assert n > 0 ==> before == [us[n - 1]] && us[n - 1].id == us[n].id;
      assert Ids(before) == if n > 0 then [us[n].id] else [];
      assert n > 0 ==> before[1..] == [];
    }
  }

  // ---------------------------------------------------------------- messages

  /** An update's message binds the collection, the value, both roots and the version. */
  lemma NavMessageBinds(id: Bytes, nav: int, o: Bytes, n: Bytes, v: int, id': Bytes, nav': int, o': Bytes, n': Bytes,
      v': int)
    requires TreeHash(ListOf(NavMessageFields(id, nav, o, n, v))) ==
             TreeHash(ListOf(NavMessageFields(id', nav', o', n', v')))
    ensures (id, nav, o, n, v) == (id', nav', o', n', v')
         || Collision(ListOf(NavMessageFields(id, nav, o, n, v)), ListOf(NavMessageFields(id', nav', o', n', v')))
  {
    hide TreeHash, ListOf, Collision, IntToAtom;
    var a, b := NavMessageFields(id, nav, o, n, v), NavMessageFields(id', nav', o', n', v');
    FieldsBind(a, b);
    if a == b {
      assert a[1] == b[1] && a[2] == b[2] && a[3] == b[3] && a[4] == b[4] && a[5] == b[5];
      IntTreeInjective(nav, nav');
      IntTreeInjective(v, v');
    }
  }

  /** Evidence of a value cannot stand for an update, nor the other way round. */
  lemma EvidenceIsNoUpdate(id: Bytes, nav: int, o: Bytes, n: Bytes, v: int, id': Bytes, nav': int, r': Bytes, v': int)
    requires TreeHash(ListOf(NavMessageFields(id, nav, o, n, v))) ==
             TreeHash(ListOf(NavEvidenceFields(id', nav', r', v')))
    ensures Collision(ListOf(NavMessageFields(id, nav, o, n, v)), ListOf(NavEvidenceFields(id', nav', r', v')))
  {
    hide TreeHash, ListOf, Collision, IntToAtom;
    FieldsBind(NavMessageFields(id, nav, o, n, v), NavEvidenceFields(id', nav', r', v'));
    assert |NavMessageFields(id, nav, o, n, v)| == 6 && |NavEvidenceFields(id', nav', r', v')| == 5;
  }

  /** The registry coin the puzzle creates for an update. */
  function OnChain(s: Registry, entries: seq<Entry>, id: Bytes, nav: int): Registry {
    s.(root := NavRoot(PuzzleUpsert(entries, id, nav)), version := s.version + 1)
  }

  function MessageTree(s: Registry, id: Bytes, nav: int, next: Registry): Tree {
    ListOf(NavMessageFields(id, nav, s.root, next.root, s.version + 1))
  }

  /** The message the driver hands out to be signed, and the one the puzzle demands a signature over. */
  function DriverMessage(s: Registry, entries: seq<Entry>, id: Bytes, nav: int): Bytes32 {
    TreeHash(MessageTree(s, id, nav, After(s, entries, id, nav)))
  }

  function PuzzleMessage(s: Registry, entries: seq<Entry>, id: Bytes, nav: int): Bytes32 {
    TreeHash(MessageTree(s, id, nav, OnChain(s, entries, id, nav)))
  }

  /** The two lists, or the two messages, collide. */
  ghost predicate MixedUp(s: Registry, entries: seq<Entry>, id: Bytes, nav: int) {
    || Collision(EntriesTree(Upsert(entries, id, nav)), EntriesTree(PuzzleUpsert(entries, id, nav)))
    || Collision(MessageTree(s, id, nav, After(s, entries, id, nav)),
      MessageTree(s, id, nav, OnChain(s, entries, id, nav)))
  }

  /**
   The state the driver predicts is the state the puzzle creates exactly when the collection was listed or the list was
   empty; otherwise the list the driver returns is refused by the next build.  Or there is a collision.
   */
  lemma PredictionHolds(s: Registry, entries: seq<Entry>, id: Bytes, nav: int)
    requires Normal(entries)
    ensures (After(s, entries, id, nav) == OnChain(s, entries, id, nav) <==> id in Ids(entries) || entries == [])
         || Collision(EntriesTree(Upsert(entries, id, nav)), EntriesTree(PuzzleUpsert(entries, id, nav)))
    ensures id !in Ids(entries) && entries != []
        && (exists amount :: Presents(OnChain(s, entries, id, nav), Upsert(entries, id, nav), amount))
        ==> Collision(EntriesTree(Upsert(entries, id, nav)), EntriesTree(PuzzleUpsert(entries, id, nav)))
  {
    hide NavRoot, Upsert, PuzzleUpsert, EntriesTree, Collision, Normal;
    DriverMeetsPuzzle(entries, id, nav);
    NavRootBinds(Upsert(entries, id, nav), PuzzleUpsert(entries, id, nav));
  }

  /** A signature over the driver's message is one over the puzzle's exactly when the prediction holds. */
  lemma SignatureFits(s: Registry, entries: seq<Entry>, id: Bytes, nav: int)
    requires Normal(entries)
    ensures (DriverMessage(s, entries, id, nav) == PuzzleMessage(s, entries, id, nav) <==>
        id in Ids(entries) || entries == [])
         || MixedUp(s, entries, id, nav)
  {
    hide NavRoot, Upsert, PuzzleUpsert, EntriesTree, Collision, Normal, TreeHash, ListOf, NavMessageFields;
    PredictionHolds(s, entries, id, nav);
    if DriverMessage(s, entries, id, nav) == PuzzleMessage(s, entries, id, nav) {
      NavMessageBinds(id, nav, s.root, After(s, entries, id, nav).root, s.version + 1,
                      id, nav, s.root, OnChain(s, entries, id, nav).root, s.version + 1);
    }
  }

  // ---------------------------------------------------------------- runs of the registry

  /** A spend of the registry coin, with the list its builder presents. */
  datatype Event =
    | Updating(id: Bytes, nav: int, entries: seq<Entry>, amount: int)
    | Reading(id: Bytes, entries: seq<Entry>, amount: int)

  function Next(side: Side, s: Registry, e: Event): Registry {
    match e
    case Updating(id, nav, entries, _) =>
      if side.Driver? then After(s, entries, id, nav) else OnChain(s, entries, id, nav)
    case Reading(_, _, _) => s
  }

  /** The puzzle limits versions and amounts to 64 bits; the driver does not. */
  predicate InRange(side: Side, s: Registry, e: Event) {
    var version := if e.Updating? then s.version + 1 else s.version;
    version >= 0 && (side.Puzzle? ==> s.version >= 0 && version < UINT64 && e.amount < UINT64)
  }

  predicate Allowed(e: Event) {
    |e.id| == 32 && if e.Updating? then GoodNav(e.nav) else e.id in AsMap(e.entries)
  }

  /** On the driver's side the states are those it predicts, on the puzzle's those of the coins it creates. */
  function Step(side: Side, s: Registry, e: Event): Option<Registry> {
    if Presents(s, e.entries, e.amount) && Allowed(e) && InRange(side, s, e) then Some(Next(side, s, e)) else None
  }

  /** When an event is possible: the driver wants a version that is not negative, the puzzle also versions and amounts
      of 64 bits. */
  lemma StepIff(side: Side, s: Registry, e: Event)
    ensures side.Driver? && e.Updating? ==>
              (Step(side, s, e).Some? <==>
                Presents(s, e.entries, e.amount) && |e.id| == 32 && GoodNav(e.nav) && s.version >= -1)
    ensures side.Driver? && e.Reading? ==>
              (Step(side, s, e).Some? <==>
                Presents(s, e.entries, e.amount) && |e.id| == 32 && e.id in AsMap(e.entries) && s.version >= 0)
    ensures side.Puzzle? && e.Updating? ==>
              (Step(side, s, e).Some? <==>
                Presents(s, e.entries, e.amount) && |e.id| == 32 && GoodNav(e.nav)
                && 0 <= s.version < 0xFFFF_FFFF_FFFF_FFFF && e.amount < 0x1_0000_0000_0000_0000)
    ensures side.Puzzle? && e.Reading? ==>
              (Step(side, s, e).Some? <==>
                Presents(s, e.entries, e.amount) && |e.id| == 32 && e.id in AsMap(e.entries)
                && 0 <= s.version < 0x1_0000_0000_0000_0000 && e.amount < 0x1_0000_0000_0000_0000)
  {
    hide Presents, AsMap, GoodNav, Next;
  }

  function Run(side: Side, s: Registry, es: seq<Event>): Option<Registry> {
    if es == [] then Some(s)
    else
      match Run(side, s, es[..|es| - 1])
      case None => None
      case Some(t) => Step(side, t, es[|es| - 1])
  }

  function Updates(es: seq<Event>): seq<Entry> {
    if es == [] then []
    else
      Updates(es[..|es| - 1]) + UpdateOf(es[|es| - 1])
  }

  function UpdateOf(e: Event): seq<Entry> {
    match e case Updating(id, nav, _, _) => [Entry(id, nav)] case Reading(_, _, _) => []
  }

  /** Some event presents a list that is not the registry's but has its root. */
  ghost predicate SomeStandIn(side: Side, start: seq<Entry>, es: seq<Event>) {
    exists k :: 0 <= k < |es| && StandsIn(es[k].entries, Play(side, start, Updates(es[..k])))
  }

  ghost predicate StandsIn(presented: seq<Entry>, listed: seq<Entry>) {
    presented != listed && Collision(EntriesTree(presented), EntriesTree(listed))
  }

  /**
   Along every run the version counts the updates, reads change nothing, and the root is that of the list all updates
   together make, or another list with that root was presented on the way.
   */
  lemma {:induction false} RunTracksList(side: Side, s: Registry, start: seq<Entry>, es: seq<Event>, t: Registry)
    requires s.root == NavRoot(start) && Normal(start) && Run(side, s, es) == Some(t)
    ensures t.version == s.version + |Updates(es)|
    ensures t.govPubkey == s.govPubkey && t.selfModHash == s.selfModHash
    ensures GoodUpdates(Updates(es))
    ensures t.root == NavRoot(Play(side, start, Updates(es))) || SomeStandIn(side, start, es)
  {
    hide Normal, AsMap, Upsert, NavRoot, Play, StandsIn, GoodNav, GoodUpdates, UpdateOf, SomeStandIn, Step;
    if es == [] {
      PlayNothing(side, start);
      assert GoodUpdates([]) by { NoUpdates(); }
    } else {
      var n := |es| - 1;
      var u :| Run(side, s, es[..n]) == Some(u);
      RunTracksList(side, s, start, es[..n], u);
      StepKeepsFields(side, u, es[n], t);
      GoodUpdatesJoin(Updates(es[..n]), UpdateOf(es[n]));
      if SomeStandIn(side, start, es[..n]) {
        StandInStays(side, start, es, n);
      } else {
        StepTracksList(side, u, start, Updates(es[..n]), es[n], t);
        if StandsIn(es[n].entries, Play(side, start, Updates(es[..n]))) {
          StandInHere(side, start, es, n);
        }
      }
    }
  }

  lemma NoUpdates()
    ensures GoodUpdates([])
  {
  }

  lemma GoodUpdatesJoin(us: seq<Entry>, vs: seq<Entry>)
    requires GoodUpdates(us) && GoodUpdates(vs)
    ensures GoodUpdates(us + vs)
  {
  }

  lemma StandInHere(side: Side, start: seq<Entry>, es: seq<Event>, n: nat)
    requires n < |es| && StandsIn(es[n].entries, Play(side, start, Updates(es[..n])))
    ensures SomeStandIn(side, start, es)
  {
    hide StandsIn;
  }

  lemma StepKeepsFields(side: Side, u: Registry, e: Event, t: Registry)
    requires Step(side, u, e) == Some(t)
    ensures t.version == u.version + |UpdateOf(e)| && t.govPubkey == u.govPubkey && t.selfModHash == u.selfModHash
    ensures GoodUpdates(UpdateOf(e))
  {
    hide Normal, AsMap, Upsert, PuzzleUpsert, NavRoot;
  }

  lemma StepTracksList(side: Side, u: Registry, start: seq<Entry>, us: seq<Entry>, e: Event, t: Registry)
    requires u.root == NavRoot(Play(side, start, us)) && Step(side, u, e) == Some(t)
    ensures t.root == NavRoot(Play(side, start, us + UpdateOf(e))) || StandsIn(e.entries, Play(side, start, us))
  {
    hide Normal, AsMap, Upsert, PuzzleUpsert, NavRoot, Play, StandsIn, GoodNav, EntriesTree, Collision;
    var listed := Play(side, start, us);
    if e.entries == listed {
      if e.Updating? {
        PlayOneMore(side, start, us, Entry(e.id, e.nav));
      } else {
        assert us + UpdateOf(e) == us;
      }
    } else {
      NavRootBinds(e.entries, listed);
      StandsInMeans(e.entries, listed);
    }
  }

  lemma PlayNothing(side: Side, start: seq<Entry>)
    ensures Play(side, start, []) == start
  {
  }

  lemma PlayOneMore(side: Side, start: seq<Entry>, us: seq<Entry>, u: Entry)
    ensures Play(side, start, us + [u]) == UpsertOn(side, Play(side, start, us), u)
  {
    assert (us + [u])[..|us|] == us;
  }

  lemma StandsInMeans(a: seq<Entry>, b: seq<Entry>)
    requires a != b && Collision(EntriesTree(a), EntriesTree(b))
    ensures StandsIn(a, b)
  {
  }

  lemma StandInStays(side: Side, start: seq<Entry>, es: seq<Event>, n: nat)
    requires n < |es| && SomeStandIn(side, start, es[..n])
    ensures SomeStandIn(side, start, es)
  {
    hide StandsIn, Play, Updates;
    var k :| 0 <= k < n && StandsIn(es[..n][k].entries, Play(side, start, Updates(es[..n][..k])));
    assert es[..n][..k] == es[..k] && es[..n][k] == es[k];
  }

  /** A read accepted after any run reports the last value set, and the state stays. */
  lemma ReadReportsLastValue(side: Side, s: Registry, es: seq<Event>, t: Registry, id: Bytes, entries: seq<Entry>,
                             amount: int, t': Registry)
    requires s.root == NavRoot([]) && Run(side, s, es) == Some(t)
    requires Step(side, t, Reading(id, entries, amount)) == Some(t')
    ensures t' == t
    ensures
      || (id in LastValues(map[], Updates(es)) && id in AsMap(entries)
          && AsMap(entries)[id] == LastValues(map[], Updates(es))[id])
      || SomeStandIn(side, [], es + [Reading(id, entries, amount)])
  {
    hide AsMap, NavRoot, Play, StandsIn, GoodNav, Updates;
    var read := Reading(id, entries, amount);
    var all := es + [read];
    assert all[..|es|] == es && all[|es|] == read;
    assert Normal([]) && AsMap([]) == map[] by { EmptyList(); }
    RunTracksList(side, s, [], es, t);
    var listed := Play(side, [], Updates(es));
    PlayActsAsMap(side, [], Updates(es));
    if SomeStandIn(side, [], es) {
      StandInStays(side, [], all, |es|);
    } else if entries != listed {
      NavRootBinds(entries, listed);
      StandsInMeans(entries, listed);
      assert StandsIn(all[|es|].entries, Play(side, [], Updates(all[..|es|])));
    }
  }

  lemma EmptyList()
    ensures Normal([]) && AsMap([]) == map[]
  {
  }

  // ---------------------------------------------------------------- runs signed with the driver

  /** A step on chain whose update carries a signature over the driver's message. */
  function SignedStep(s: Registry, e: Event): Option<Registry> {
    if e.Updating? && DriverMessage(s, e.entries, e.id, e.nav) != PuzzleMessage(s, e.entries, e.id, e.nav) then None
    else Step(Puzzle, s, e)
  }

  function SignedRun(s: Registry, es: seq<Event>): Option<Registry> {
    if es == [] then Some(s)
    else
      match SignedRun(s, es[..|es| - 1])
      case None => None
      case Some(t) => SignedStep(t, es[|es| - 1])
  }

  /** At some update the driver's list or message collides with the puzzle's. */
  ghost predicate SomeMixUp(s: Registry, es: seq<Event>) {
    exists k :: 0 <= k < |es| && MixUpAt(s, es[..k], es[k])
  }

  ghost predicate MixUpAt(s: Registry, before: seq<Event>, e: Event) {
    e.Updating? && Run(Puzzle, s, before).Some? && MixedUp(Run(Puzzle, s, before).value, e.entries, e.id, e.nav)
  }

  lemma MixUpStays(s: Registry, es: seq<Event>, n: nat)
    requires n < |es| && SomeMixUp(s, es[..n])
    ensures SomeMixUp(s, es)
  {
    hide MixUpAt;
    var k :| 0 <= k < n && MixUpAt(s, es[..n][..k], es[..n][k]);
    assert es[..n][..k] == es[..k] && es[..n][k] == es[k];
  }

  /** A collection is listed after a run, or nothing is, exactly when naming it keeps the run to one collection. */
  lemma ListedIffNamed(us: seq<Entry>, u: Entry)
    requires GoodUpdates(us) && OneCollectionNamed(us)
    ensures var listed := Play(Puzzle, [], us);
      u.id in Ids(listed) || listed == [] <==> OneCollectionNamed(us + [u])
  {
    hide Play, FirstUpdate;
    var listed := Play(Puzzle, [], us);
    KeyOrder(us);
    if us == [] {
      PlayNothing(Puzzle, []);
    } else {
      FirstUpdateHere(us, 0);
      assert us[0].id in Ids(listed);
      assert (us + [u])[|us|] == u && (us + [u])[0] == us[0];
    }
  }

  /**
   Of the runs on chain from the empty registry, those that can be signed with the driver's messages are exactly those
   that name one collection, or there is a collision.
   */
  lemma {:induction false} SignedRunsNameOneCollection(s: Registry, es: seq<Event>, t: Registry)
    requires s.root == NavRoot([]) && Run(Puzzle, s, es) == Some(t)
    ensures
      || (SignedRun(s, es) == Some(t) <==> OneCollectionNamed(Updates(es)))
      || SomeStandIn(Puzzle, [], es) || SomeMixUp(s, es)
    ensures SignedRun(s, es).Some? ==> SignedRun(s, es) == Some(t)
  {
    hide Step, SignedStep, SomeStandIn, SomeMixUp, OneCollectionNamed, GoodUpdates, NavRoot;
    if es == [] {
      NothingNamed();
    } else {
      var n := |es| - 1;
      var u :| Run(Puzzle, s, es[..n]) == Some(u);
      SignedRunsNameOneCollection(s, es[..n], u);
      SignedStepIsStep(u, es[n]);
      if SomeStandIn(Puzzle, [], es[..n]) {
        StandInStays(Puzzle, [], es, n);
      } else if SomeMixUp(s, es[..n]) {
        MixUpStays(s, es, n);
      } else {
        SignedStepNames(s, es, n, u, t);
      }
    }
  }

  lemma NothingNamed()
    ensures OneCollectionNamed(Updates([]))
  {
  }

  lemma SignedStepIsStep(s: Registry, e: Event)
    ensures SignedStep(s, e).Some? ==> SignedStep(s, e) == Step(Puzzle, s, e)
  {
  }

  /** After a run that names one collection, the next step can be signed exactly when it names no other. */
  lemma SignedStepNames(s: Registry, es: seq<Event>, n: nat, u: Registry, t: Registry)
    requires s.root == NavRoot([]) && n == |es| - 1
    requires Run(Puzzle, s, es[..n]) == Some(u) && Step(Puzzle, u, es[n]) == Some(t)
    requires !SomeStandIn(Puzzle, [], es[..n])
    ensures
      || (OneCollectionNamed(Updates(es)) <==> OneCollectionNamed(Updates(es[..n])) && SignedStep(u, es[n]) == Some(t))
      || SomeStandIn(Puzzle, [], es) || SomeMixUp(s, es)
  {
    hide NavRoot, StandsIn, MixedUp, Play, Upsert, PuzzleUpsert, EntriesTree, Collision, Normal, AsMap, DriverMessage,
      PuzzleMessage, GoodNav, Ids, OneCollectionNamed, SomeMixUp;
    var e, us := es[n], Updates(es[..n]);
    assert Normal([]) by { EmptyList(); }
    RunTracksList(Puzzle, s, [], es[..n], u);
    var listed := Play(Puzzle, [], us);
    if e.entries != listed {
      NavRootBinds(e.entries, listed);
      StandsInMeans(e.entries, listed);
      assert StandsIn(es[n].entries, Play(Puzzle, [], Updates(es[..n])));
    } else if e.Updating? {
      SignatureFits(u, e.entries, e.id, e.nav);
      if MixedUp(u, e.entries, e.id, e.nav) {
        MixUpHere(s, es, n, u);
      } else {
        OneNamedPrefix(us, Entry(e.id, e.nav));
        if OneCollectionNamed(us) {
          ListedIffNamed(us, Entry(e.id, e.nav));
        }
      }
    } else {
      assert Updates(es) == us;
    }
  }

  lemma MixUpHere(s: Registry, es: seq<Event>, n: nat, u: Registry)
    requires n < |es| && es[n].Updating? && Run(Puzzle, s, es[..n]) == Some(u)
    requires MixedUp(u, es[n].entries, es[n].id, es[n].nav)
    ensures SomeMixUp(s, es)
  {
    hide MixedUp, Run;
    assert MixUpAt(s, es[..n], es[n]);
  }

  lemma OneNamedPrefix(us: seq<Entry>, u: Entry)
    ensures OneCollectionNamed(us + [u]) ==> OneCollectionNamed(us)
  {
    assert forall i :: 0 <= i < |us| ==> (us + [u])[i] == us[i];
  }
}
