/**
 The administrator authority's state, the inner puzzle that carries it, and the messages that bind it.
 */
module AuthorityState {
  import opened Hashing
  import opened Results
  import opened Sequences
  import opened Clvm
  import opened Currying

  const PENDING_NONE := 0
  const PENDING_ROUTINE := 1
  const PENDING_LOST := 2
  const PENDING_RECOVERY_KIT := 3

  const ID_ACTION_PREPARE := 3
  const ID_ACTION_CANCEL := 4
  const ID_ACTION_COMPLETE := 5

  const ROUTINE_DELAY_SECONDS := 86_400
  const LOST_KEY_DELAY_SECONDS := 604_800

  /** The compiled modules; their values are left open. */
  const INNER_MOD_V3: Tree
  const INNER_MOD_V4: Tree
  const AUTHORITY_ACTION_MOD: Tree
  const IDENTITY_ACTION_MOD: Tree

  /** What changes from spend to spend. */
  datatype State = State(
    custodies: seq<Bytes32>,
    version: int,
    kind: int,
    slot: int,
    intent: Bytes32,
    coinId: Bytes32,
    original: Bytes32,
    replacement: Bytes32,
    member: Bytes32,
    delay: int)
  {
    predicate Pending() {
      kind != PENDING_NONE
    }
  }

  /** What never changes. */
  datatype Config = Config(
    operationalRoot: Bytes32,
    launcherId: Bytes32,
    lostRoots: seq<Bytes32>,
    identityLaunchers: seq<Bytes32>,
    routineDelay: int,
    lostDelay: int,
    manifest: Bytes32,
    puzzleVersion: int)

  function Idle(custodies: seq<Bytes32>, version: int): State {
    State(custodies, version, PENDING_NONE, 0, ZERO_32, ZERO_32, ZERO_32, ZERO_32, ZERO_32, 0)
  }

  function DelayFor(kind: int): int {
    if kind == PENDING_LOST then LOST_KEY_DELAY_SECONDS else ROUTINE_DELAY_SECONDS
  }

  predicate IsChange(kind: int) {
    kind in {PENDING_ROUTINE, PENDING_LOST, PENDING_RECOVERY_KIT}
  }

  predicate Valid(s: State) {
    && s.version >= 1
    && |s.custodies| == 3
    && ZERO_32 !in s.custodies
    && if s.kind == PENDING_NONE then s == Idle(s.custodies, s.version)
       else
         && IsChange(s.kind)
         && 0 <= s.slot < 3
         && ZERO_32 !in [s.intent, s.coinId, s.original, s.replacement, s.member]
         && s.delay == DelayFor(s.kind)
  }

  // ---------------------------------------------------------------- the inner puzzle

  function InnerMod(version: int): Result<Tree> {
    if version == 3 then Ok(INNER_MOD_V3)
    else if version == 4 then Ok(INNER_MOD_V4)
    else Err("unsupported authority puzzle version")
  }

  function VersionForHash(modHash: Bytes32): Result<int> {
    if modHash == TreeHash(INNER_MOD_V3) then Ok(3)
    else if modHash == TreeHash(INNER_MOD_V4) then Ok(4)
    else Err("unsupported authority inner module hash")
  }

  function Atoms(hs: seq<Bytes32>): seq<Tree> {
    seq(|hs|, i requires 0 <= i < |hs| => Atom(hs[i]))
  }

  /** The curried arguments by name, in curry order. */
  datatype Arguments = Arguments(
    selfMod: Tree, singletonMod: Tree, singletonLauncher: Tree, launcherId: Tree,
    authorityActionMod: Tree, identityActionMod: Tree,
    operationalRoot: Tree, lostRoots: Tree, identity0: Tree, identity1: Tree, identity2: Tree, custodies: Tree,
    routineDelay: Tree, lostDelay: Tree, manifest: Tree,
    version: Tree, kind: Tree, slot: Tree, intent: Tree, coinId: Tree,
    original: Tree, replacement: Tree, member: Tree, delay: Tree)

  function Spread(a: Arguments): seq<Tree> {
    [a.selfMod, a.singletonMod, a.singletonLauncher, a.launcherId, a.authorityActionMod, a.identityActionMod,
     a.operationalRoot, a.lostRoots, a.identity0, a.identity1, a.identity2, a.custodies,
     a.routineDelay, a.lostDelay, a.manifest, a.version, a.kind, a.slot,
     a.intent, a.coinId, a.original, a.replacement, a.member, a.delay]
  }

  function Gather(v: seq<Tree>): Arguments
    requires |v| == 24
  {
    Arguments(v[0], v[1], v[2], v[3], v[4], v[5], v[6], v[7], v[8], v[9], v[10], v[11],
              v[12], v[13], v[14], v[15], v[16], v[17], v[18], v[19], v[20], v[21], v[22], v[23])
  }

  lemma GatherOfSpread(a: Arguments)
    ensures |Spread(a)| == 24 && Gather(Spread(a)) == a
  {
  }

  lemma SpreadOfGather(v: seq<Tree>)
    requires |v| == 24
    ensures Spread(Gather(v)) == v
  {
  }

  function Pack(modHash: Bytes32, c: Config, s: State): Arguments
    requires |c.identityLaunchers| == 3
  {
    Arguments(
      Atom(modHash), Atom(TreeHash(SINGLETON_MOD)), Atom(SINGLETON_LAUNCHER_HASH), Atom(c.launcherId),
      Atom(TreeHash(AUTHORITY_ACTION_MOD)), Atom(TreeHash(IDENTITY_ACTION_MOD)),
      Atom(c.operationalRoot), ListOf(Atoms(c.lostRoots)),
      Atom(c.identityLaunchers[0]), Atom(c.identityLaunchers[1]), Atom(c.identityLaunchers[2]),
      ListOf(Atoms(s.custodies)),
      IntTree(c.routineDelay), IntTree(c.lostDelay), Atom(c.manifest),
      IntTree(s.version), IntTree(s.kind), IntTree(s.slot),
      Atom(s.intent), Atom(s.coinId), Atom(s.original), Atom(s.replacement), Atom(s.member),
      IntTree(s.delay))
  }

  /** The state an inner puzzle is made for: the one given, or the genesis state of the custodies given. */
  function Resolve(supplied: Option<seq<Bytes32>>, state: Option<State>): Result<State> {
    match state
    case None =>
      if supplied.None? then Err("custody hashes are required for genesis state")
      else if |supplied.value| != 3 then Err("exactly three identity custody hashes")
      else Ok(Idle(supplied.value, 1))
    case Some(s) =>
      if supplied.Some? && supplied.value != s.custodies then Err("state custody hashes do not match")
      else Ok(s)
  }

  function MakeInner(c: Config, supplied: Option<seq<Bytes32>>, state: Option<State>): Result<Tree> {
    if |c.lostRoots| != 3 then Err("one lost-key recovery root per slot")
    else if |c.identityLaunchers| != 3 then Err("exactly three identity launchers")
    else if !Distinct(c.identityLaunchers) then Err("identity launcher ids must be distinct")
    else if c.manifest == ZERO_32 then Err("source manifest hash must be nonzero")
    else if c.launcherId == ZERO_32 then Err("authority launcher id must be nonzero")
    else match Resolve(supplied, state)
         case Err(reason) => Err(reason)
         case Ok(s) =>
           if !Valid(s) then Err("invalid state")
           else match InnerMod(c.puzzleVersion)
                case Err(reason) => Err(reason)
                case Ok(mod) => Ok(Curry(mod, Spread(Pack(TreeHash(mod), c, s))))
  }

  predicate IsBytes32(t: Tree) {
    t.Atom? && |t.a| == 32
  }

  /** The three 32-byte atoms of a proper list. */
  function Three(t: Tree): Option<seq<Bytes32>> {
    match Items(t)
    case None => None
    case Some(ts) =>
      if |ts| == 3 && IsBytes32(ts[0]) && IsBytes32(ts[1]) && IsBytes32(ts[2]) then Some([ts[0].a, ts[1].a, ts[2].a])
      else None
  }

  function ParseState(a: Arguments): Result<State> {
    var custodies := Three(a.custodies);
    if custodies.None? then Err("three identity custody hashes")
    else if !(a.version.Atom? && a.kind.Atom? && a.slot.Atom? && a.delay.Atom?) then Err("expected an integer atom")
    else if !(IsBytes32(a.intent) && IsBytes32(a.coinId)
              && IsBytes32(a.original) && IsBytes32(a.replacement) && IsBytes32(a.member)) then
      Err("expected a 32-byte atom")
    else
      var s := State(custodies.value, AtomToInt(a.version.a), AtomToInt(a.kind.a), AtomToInt(a.slot.a),
                     a.intent.a, a.coinId.a, a.original.a, a.replacement.a, a.member.a, AtomToInt(a.delay.a));
      if Valid(s) then Ok(s) else Err("invalid state")
  }

  function ParseConfig(modHash: Bytes32, a: Arguments): Result<Config> {
    var version := VersionForHash(modHash);
    var lostRoots := Three(a.lostRoots);
    if version.Err? then Err(version.reason)
    else if a.selfMod != Atom(modHash) then Err("self module hash is inconsistent")
    else if a.singletonMod != Atom(TreeHash(SINGLETON_MOD)) then Err("singleton module hash is inconsistent")
    else if a.singletonLauncher != Atom(SINGLETON_LAUNCHER_HASH) then Err("singleton launcher hash is inconsistent")
    else if a.authorityActionMod != Atom(TreeHash(AUTHORITY_ACTION_MOD)) then Err("action module hash is inconsistent")
    else if a.identityActionMod != Atom(TreeHash(IDENTITY_ACTION_MOD)) then Err("identity action hash is inconsistent")
    else if lostRoots.None? || !Distinct(lostRoots.value) then Err("three distinct lost-key roots")
    else if !a.routineDelay.Atom? || AtomToInt(a.routineDelay.a) != ROUTINE_DELAY_SECONDS then
      Err("routine delay is not canonical")
    else if !a.lostDelay.Atom? || AtomToInt(a.lostDelay.a) != LOST_KEY_DELAY_SECONDS then
      Err("lost-key delay is not canonical")
    else if !(IsBytes32(a.identity0) && IsBytes32(a.identity1) && IsBytes32(a.identity2)) then
      Err("expected a 32-byte atom")
    else if !Distinct([a.identity0.a, a.identity1.a, a.identity2.a]) then
      Err("identity launcher ids are not distinct")
    else if !(IsBytes32(a.launcherId) && IsBytes32(a.operationalRoot) && IsBytes32(a.manifest)) then
      Err("expected a 32-byte atom")
    else Ok(Config(a.operationalRoot.a, a.launcherId.a, lostRoots.value,
                   [a.identity0.a, a.identity1.a, a.identity2.a],
                   AtomToInt(a.routineDelay.a), AtomToInt(a.lostDelay.a), a.manifest.a, version.value))
  }

  function ParseInner(t: Tree): Result<(Config, State)> {
    match Uncurry(t)
    case None => Err("inner puzzle is not curried")
    case Some((mod, v)) =>
      if |v| != 24 then Err("inner puzzle must have 24 arguments")
      else match (ParseConfig(TreeHash(mod), Gather(v)), ParseState(Gather(v)))
           case (Ok(c), Ok(s)) => Ok((c, s))
           case (Err(reason), _) => Err(reason)
           case (_, Err(reason)) => Err(reason)
  }

  // ---------------------------------------------------------------- making and parsing

  lemma ThreeIsList(t: Tree, hs: seq<Bytes32>)
    ensures Three(t) == Some(hs) <==> |hs| == 3 && t == ListOf(Atoms(hs))
  {
    ItemsOfList(Atoms(hs));
    if Items(t).Some? {
      ListOfItems(t);
      if Three(t) == Some(hs) {
        assert Atoms(hs) == Items(t).value;
      }
    }
    if |hs| == 3 {
      assert hs == [hs[0], hs[1], hs[2]];
    }
  }

  lemma ParseStateOfPack(modHash: Bytes32, c: Config, s: State)
    requires |c.identityLaunchers| == 3 && Valid(s)
    ensures ParseState(Pack(modHash, c, s)) == Ok(s)
  {
    hide TreeHash, IntToAtom, AtomToInt, ListOf, Atoms, Three;
    ThreeIsList(ListOf(Atoms(s.custodies)), s.custodies);
    IntRoundTrip(s.version);
    IntRoundTrip(s.kind);
    IntRoundTrip(s.slot);
    IntRoundTrip(s.delay);
  }

  /** The version a module hash is read as. */
  predicate ModuleIsNamed(version: int) {
    && version in {3, 4}
    && (version == 4 ==> TreeHash(INNER_MOD_V3) != TreeHash(INNER_MOD_V4))
  }

  predicate CanonicalConfig(c: Config) {
    && c.routineDelay == ROUTINE_DELAY_SECONDS
    && c.lostDelay == LOST_KEY_DELAY_SECONDS
    && Distinct(c.lostRoots)
    && ModuleIsNamed(c.puzzleVersion)
  }

  lemma ParseConfigOfPack(mod: Tree, c: Config, s: State)
    requires |c.lostRoots| == 3 && |c.identityLaunchers| == 3 && Distinct(c.identityLaunchers)
    requires InnerMod(c.puzzleVersion) == Ok(mod)
    ensures ParseConfig(TreeHash(mod), Pack(TreeHash(mod), c, s)) == Ok(c) <==> CanonicalConfig(c)
  {
    hide TreeHash, IntToAtom, AtomToInt, ListOf, Atoms, Three;
    ThreeIsList(ListOf(Atoms(c.lostRoots)), c.lostRoots);
    IntRoundTrip(c.routineDelay);
    IntRoundTrip(c.lostDelay);
    assert c.identityLaunchers == [c.identityLaunchers[0], c.identityLaunchers[1], c.identityLaunchers[2]];
  }

  /** Parsing undoes making exactly for canonical delays, distinct recovery roots and a named module. */
  lemma ParseOfMake(c: Config, s: State)
    requires MakeInner(c, None, Some(s)).Ok?
    ensures ParseInner(MakeInner(c, None, Some(s)).value) == Ok((c, s)) <==> CanonicalConfig(c)
  {
    hide TreeHash, Curry, Uncurry, Spread, Gather, ParseConfig, ParseState;
    var mod := InnerMod(c.puzzleVersion).value;
    var packed := Pack(TreeHash(mod), c, s);
    UncurryIsInverse(Curry(mod, Spread(packed)), mod, Spread(packed));
    GatherOfSpread(packed);
    ParseStateOfPack(TreeHash(mod), c, s);
    ParseConfigOfPack(mod, c, s);
  }

  /** The integer arguments are spelled the only way the printer spells them. */
  predicate MinimalIntegers(a: Arguments) {
    && MinimalInteger(a.routineDelay) && MinimalInteger(a.lostDelay)
    && MinimalInteger(a.version) && MinimalInteger(a.kind) && MinimalInteger(a.slot) && MinimalInteger(a.delay)
  }

  predicate MinimalInteger(t: Tree) {
    t.Atom? && Minimal(t.a)
  }

  lemma MinimalIntegerTree(t: Tree)
    requires t.Atom?
    ensures IntTree(AtomToInt(t.a)) == t <==> Minimal(t.a)
  {
    AtomIsCanonical(t.a);
  }

  lemma PackOfParse(modHash: Bytes32, a: Arguments, c: Config, s: State)
    requires ParseConfig(modHash, a) == Ok(c) && ParseState(a) == Ok(s)
    ensures |c.lostRoots| == 3 && |c.identityLaunchers| == 3 && Distinct(c.identityLaunchers) && Valid(s)
    ensures VersionForHash(modHash) == Ok(c.puzzleVersion)
    ensures Pack(modHash, c, s) == a <==> MinimalIntegers(a)
  {
    hide TreeHash, IntToAtom, AtomToInt, ListOf, Atoms, Three;
    ThreeIsList(a.lostRoots, c.lostRoots);
    ThreeIsList(a.custodies, s.custodies);
    MinimalIntegerTree(a.routineDelay);
    MinimalIntegerTree(a.lostDelay);
    MinimalIntegerTree(a.version);
    MinimalIntegerTree(a.kind);
    MinimalIntegerTree(a.slot);
    MinimalIntegerTree(a.delay);
  }

  /** Making undoes parsing exactly for nonzero manifest and launcher and minimal integers. */
  lemma MakeOfParse(t: Tree, mod: Tree, v: seq<Tree>, c: Config, s: State)
    requires ParseInner(t) == Ok((c, s)) && Uncurry(t) == Some((mod, v))
    ensures |v| == 24 && InnerMod(c.puzzleVersion).Ok?
    ensures
      || (MakeInner(c, None, Some(s)) == Ok(t)
          <==> c.manifest != ZERO_32 && c.launcherId != ZERO_32 && MinimalIntegers(Gather(v)))
      || Collision(mod, InnerMod(c.puzzleVersion).value)
  {
    hide TreeHash, Curry, Uncurry, Spread, Gather, Pack, ParseConfig, ParseState, Collision;
    UncurryIsInverse(t, mod, v);
    PackOfParse(TreeHash(mod), Gather(v), c, s);
    var mod' := InnerMod(c.puzzleVersion).value;
    TreeHashBinds(mod, mod');
    var packed := Pack(TreeHash(mod), c, s);
    UncurryIsInverse(Curry(mod', Spread(packed)), mod', Spread(packed));
    GatherOfSpread(packed);
    SpreadOfGather(v);
  }

  /** An inner puzzle hash commits to every field of a canonical configuration and state. */
  lemma InnerHashBinds(c: Config, s: State, c': Config, s': State)
    requires CanonicalConfig(c) && CanonicalConfig(c')
    requires MakeInner(c, None, Some(s)).Ok? && MakeInner(c', None, Some(s')).Ok?
    requires TreeHash(MakeInner(c, None, Some(s)).value) == TreeHash(MakeInner(c', None, Some(s')).value)
    ensures
      || (c == c' && s == s')
      || Collision(MakeInner(c, None, Some(s)).value, MakeInner(c', None, Some(s')).value)
  {
    TreeHashBinds(MakeInner(c, None, Some(s)).value, MakeInner(c', None, Some(s')).value);
    ParseOfMake(c, s);
    ParseOfMake(c', s');
  }
}
