/**
 Which steps of the key-change protocol exist, and which vaults each of them spends.
 */
module AuthoritySteps {
  import opened Hashing
  import opened Results
  import opened Clvm
  import opened Currying
  import opened AuthorityState
  import opened AuthorityMessages
  import opened Quorum
  import opened AuthorityProtocol
  import opened AuthorityRuns

  // ---------------------------------------------------------------- when a step exists

  predicate Room(w: World) {
    w.state.version + 1 < 0x1_0000_0000_0000_0000
  }

  /** What a caller must bring to prepare a change: keys of the right sizes that replace what the kind allows, the live
      coin of the vault with its custody, nonzero ids, and approvers that fit. */
  predicate Preparable(w: World, ch: Change, chosen: Option<int>)
    requires Shaped(w)
  {
    && !w.state.Pending() && Room(w)
    && IsChange(ch.kind) && 0 <= ch.identity.slot < 3
    && Replaces(ch, NewIdentity(ch)) && |NewIdentity(ch).daily| == 33 && |NewIdentity(ch).recovery| == 48
    && ch.intent != ZERO_32 && ch.coinId != ZERO_32
    && w.vaults[ch.identity.slot].coinId == ch.coinId
    && w.vaults[ch.identity.slot].inner == CustodyHash(w.config.launcherId, ch.identity)
    && SelectedSlots(ch.kind, ch.identity.slot, chosen).Ok?
  }

  /** No hash of the commitment is zero or equal to one that it must differ from. */
  predicate NoAccident(b: Binding) {
    && ZERO_32 !in [b.intermediate, b.replacement, b.member, b.intermediateCoin]
    && b.intermediate != b.original && b.replacement != b.original && b.replacement != b.intermediate
    && b.currentCoin != b.intermediateCoin
  }

  predicate DelayOver(w: World) {
    w.clock >= w.born + if w.state.kind == PENDING_LOST then 604_800 else 86_400
  }

  predicate Enabled(w: World, e: Event)
    requires Shaped(w) && (w.state.Pending() ==> 0 <= w.state.slot < 3)
  {
    match e
    case Tick(_) => true
    case Operate(coadmin) => !w.state.Pending() && Room(w) && (coadmin == 1 || coadmin == 2)
    case Prepare(ch, chosen) => Preparable(w, ch, chosen) && NoAccident(Commit(w.config, w.state, ch).0)
    case Cancel => w.state.Pending() && Live(w) && Room(w)
    case Complete => w.state.Pending() && Live(w) && Room(w) && DelayOver(w)
    case FinishAlone(slot) => w.state.Pending() && Live(w) && slot == w.state.slot && DelayOver(w)
  }

  lemma MakeSucceeds(c: Config, s: State)
    requires ConfigIsGood(c) && Valid(s) && InnerMod(c.puzzleVersion).Ok?
    ensures MakeInner(c, None, Some(s)).Ok?
  {
    hide Pack, Spread, Curry, InnerMod, CanonicalConfig, Valid, TreeHash;
  }

  lemma CommitIsValid(c: Config, s: State, ch: Change)
    requires Valid(s) && |c.identityLaunchers| == 3
    requires 0 <= ch.identity.slot < 3 && IsChange(ch.kind) && ch.intent != ZERO_32
    requires s.custodies[ch.identity.slot] == CustodyHash(c.launcherId, ch.identity)
    requires NoAccident(Commit(c, s, ch).0)
    ensures Valid(Commit(c, s, ch).2)
  {
    hide ChildCoin, CustodyHash, IntermediateHash, TreeHash, DAILY_MEMBER, TerminalTree;
    var (b, f, p) := Commit(c, s, ch);
    forall i | 0 <= i < 3
      ensures p.custodies[i] != ZERO_32
    {
      assert s.custodies[i] in s.custodies;
    }
    assert p.original in s.custodies;
    var zero := ZERO_32;
    assert zero !in [b.intermediate, b.replacement, b.member, b.intermediateCoin];
    assert [b.intermediate, b.replacement, b.member, b.intermediateCoin][1] == p.replacement;
    assert [b.intermediate, b.replacement, b.member, b.intermediateCoin][2] == p.member;
    assert [b.intermediate, b.replacement, b.member, b.intermediateCoin][3] == p.coinId;
  }

  /** The driver builds a transition exactly for the changes that replace keys as their kind allows. */
  lemma TransitionIff(c: Config, s: State, ch: Change)
    requires ConfigIsGood(c) && Valid(s) && InnerMod(c.puzzleVersion).Ok?
    requires 0 <= ch.identity.slot < 3 && IsChange(ch.kind) && ch.intent != ZERO_32 && !s.Pending()
    requires s.custodies[ch.identity.slot] == CustodyHash(c.launcherId, ch.identity)
    requires NoAccident(Commit(c, s, ch).0)
    ensures TransitionFrom(c, s, ch).Ok? <==> Replaces(ch, NewIdentity(ch)) && |NewIdentity(ch).recovery| == 48
  {
    hide Commit, ChildCoin, CustodyHash, IntermediateHash, TreeHash, ListOf, CheckKeys, Replaces, CanonicalConfig,
      MakeInner, InnerMod, TerminalTree, Valid, PrepareMessage, BindingTree;
    ValidHasThree(s);
    CommitIsValid(c, s, ch);
    MakeSucceeds(c, Commit(c, s, ch).2);
    CommitNamesChange(c, s, ch);
    KeysAreSized(ch);
  }

  lemma ValidHasThree(s: State)
    requires Valid(s)
    ensures |s.custodies| == 3
  {
  }

  lemma KeysAreSized(ch: Change)
    requires IsChange(ch.kind)
    ensures CheckKeys(ch).Ok? <==> Replaces(ch, NewIdentity(ch)) && |NewIdentity(ch).recovery| == 48
  {
    AcceptedKeysReplace(ch);
  }

  lemma CommitNamesChange(c: Config, s: State, ch: Change)
    requires |s.custodies| == 3 && |c.identityLaunchers| == 3 && 0 <= ch.identity.slot < 3
    ensures Commit(c, s, ch).0.kind == ch.kind && Commit(c, s, ch).0.slot == ch.identity.slot
    ensures Commit(c, s, ch).0.currentCoin == ch.coinId && Commit(c, s, ch).0.intent == ch.intent
    ensures Commit(c, s, ch).0.newVersion == s.version + 1
    ensures Commit(c, s, ch).0.member == Commit(c, s, ch).2.member
    ensures Commit(c, s, ch).0.intermediateCoin == Commit(c, s, ch).2.coinId && Commit(c, s, ch).2.kind == ch.kind
    ensures Commit(c, s, ch).0.original == CustodyHash(c.launcherId, ch.identity)
    ensures Commit(c, s, ch).0.intermediateCoin
         == ChildCoin(ch.coinId, c.identityLaunchers[ch.identity.slot], Commit(c, s, ch).0.intermediate,
                      ch.identity.slot)
  {
    hide ChildCoin, CustodyHash, IntermediateHash, TreeHash, DAILY_MEMBER, TerminalTree;
  }

  // ---------------------------------------------------------------- prepare

  lemma BuildIff(w: World, ch: Change)
    requires Inv(w) && !w.state.Pending() && 0 <= ch.identity.slot < 3
    requires w.state.custodies[ch.identity.slot] == CustodyHash(w.config.launcherId, ch.identity)
    requires NoAccident(Commit(w.config, w.state, ch).0)
    ensures MakeInner(w.config, None, Some(w.state)).Ok?
    ensures BuildTransition(MakeInner(w.config, None, Some(w.state)).value, ch).Ok? <==>
              && IsChange(ch.kind) && ch.intent != ZERO_32 && ch.coinId != ZERO_32 && |NewIdentity(ch).daily| == 33
              && Replaces(ch, NewIdentity(ch)) && |NewIdentity(ch).recovery| == 48
  {
    hide Commit, CustodyHash, MakeInner, ParseInner, TransitionFrom, Valid, Live, Stranded, Settled, Replaces,
      CanonicalConfig, NoAccident, InnerMod, IsChange;
    InnerIsMade(w);
    MadeHasModule(w.config, w.state);
    if IsChange(ch.kind) && ch.intent != ZERO_32 {
      TransitionIff(w.config, w.state, ch);
    }
  }

  lemma MadeHasModule(c: Config, s: State)
    requires MakeInner(c, None, Some(s)).Ok?
    ensures InnerMod(c.puzzleVersion).Ok?
  {
    hide Pack, Spread, Curry, InnerMod;
  }

  /** A change can be prepared exactly when the caller brings what it takes, and no hash is an accident. */
  lemma PrepareIff(w: World, ch: Change, chosen: Option<int>)
    requires Inv(w)
    ensures StepPrepare(w, ch, chosen).Some? <==>
              Preparable(w, ch, chosen) && NoAccident(Commit(w.config, w.state, ch).0)
  {
    hide StepPrepare, Inv, Commit, CustodyHash, NoAccident, Replaces;
    InvIsShaped(w);
    if StepPrepare(w, ch, chosen).Some? {
      PreparedIsPreparable(w, ch, chosen);
    }
    if Preparable(w, ch, chosen) && NoAccident(Commit(w.config, w.state, ch).0) {
      PreparableIsPrepared(w, ch, chosen);
    }
  }

  lemma IdleIsSettled(w: World, slot: int)
    requires Inv(w) && !w.state.Pending() && 0 <= slot < 3
    ensures Shaped(w) && w.vaults[slot].inner == w.state.custodies[slot]
  {
    SettledEverywhere(w, slot);
  }

  lemma PreparableIsPrepared(w: World, ch: Change, chosen: Option<int>)
    requires Inv(w) && Shaped(w) && Preparable(w, ch, chosen) && NoAccident(Commit(w.config, w.state, ch).0)
    ensures StepPrepare(w, ch, chosen).Some?
  {
    hide Commit, CustodyHash, MakeInner, BuildTransition, Inv, Replaces, ChildCoin, SelectedSlots, Prepared, NoAccident,
      Recorded, Waiting, TreeHash, PuzzleAcceptsPrepare, IsChange;
    IdleIsSettled(w, ch.identity.slot);
    BuildIff(w, ch);
    var t := BuildTransition(MakeInner(w.config, None, Some(w.state)).value, ch).value;
    BuiltTransition(w, ch, t);
    CommitNamesChange(w.config, w.state, ch);
    var (a, b) := SelectedSlots(ch.kind, ch.identity.slot, chosen).value;
    SelectedAreOrdered(ch.kind, ch.identity.slot, chosen);
    PuzzleAccepts(w, ch, chosen, t);
    IdleIsSettled(w, a);
    IdleIsSettled(w, b);
    BundleIsMade(w, t, a, b);
  }

  lemma PuzzleAccepts(w: World, ch: Change, chosen: Option<int>, t: Transition)
    requires Shaped(w) && Preparable(w, ch, chosen) && NoAccident(t.binding)
    requires w.state.custodies[ch.identity.slot] == CustodyHash(w.config.launcherId, ch.identity)
    requires t.binding == Commit(w.config, w.state, ch).0
    ensures var (a, b) := SelectedSlots(ch.kind, ch.identity.slot, chosen).value;
      PuzzleAcceptsPrepare(w.config, w.state, t, a, b)
  {
    hide Commit, CustodyHash, Replaces, ChildCoin, SelectedSlots, RootFor, Satisfied, ValidPrepareRecords, IsChange;
    CommitNamesChange(w.config, w.state, ch);
    SelectionIsAccepted(ch.kind, ch.identity.slot, chosen);
    var zero, n := ZERO_32, t.binding;
    var named := [n.intermediate, n.replacement, n.member, n.intermediateCoin];
    assert zero !in named && named[0] == n.intermediate && named[1] == n.replacement;
  }

  lemma BundleIsMade(w: World, t: Transition, a: int, b: int)
    requires Shaped(w) && 0 <= t.binding.slot < 3 && 0 <= a < b < 3
    requires w.vaults[t.binding.slot].coinId == t.binding.currentCoin
    requires w.vaults[t.binding.slot].inner == t.binding.original
    requires w.vaults[a].inner == w.state.custodies[a] && w.vaults[b].inner == w.state.custodies[b]
    ensures Prepared(w, t, a, b).Some?
  {
    hide ChildCoin;
  }

  lemma SelectedAreOrdered(kind: int, slot: int, coadmin: Option<int>)
    requires 0 <= slot < 3 && SelectedSlots(kind, slot, coadmin).Ok?
    ensures var (a, b) := SelectedSlots(kind, slot, coadmin).value; 0 <= a < b < 3
  {
  }

  lemma PreparedIsPreparable(w: World, ch: Change, chosen: Option<int>)
    requires Inv(w) && StepPrepare(w, ch, chosen).Some?
    ensures Shaped(w) && Preparable(w, ch, chosen) && NoAccident(Commit(w.config, w.state, ch).0)
  {
    hide Commit, CustodyHash, MakeInner, BuildTransition, Inv, Replaces, ChildCoin, SelectedSlots, RootFor, Satisfied,
      ValidPrepareRecords, Recorded, Waiting, TreeHash, ParseInner;
    InvIsShaped(w);
    var t := BuildTransition(MakeInner(w.config, None, Some(w.state)).value, ch).value;
    BuiltTransition(w, ch, t);
    CommitNamesChange(w.config, w.state, ch);
    PreparedIsBuilt(w, ch, chosen, t);
  }

  lemma BuiltIsSized(inner: Tree, ch: Change, c: Config, s: State)
    requires BuildTransition(inner, ch).Ok? && ParseInner(inner) == Ok((c, s))
    ensures IsChange(ch.kind) && 0 <= ch.identity.slot < 3 && |ch.newDaily| == 33
    ensures ch.intent != ZERO_32 && ch.coinId != ZERO_32 && CheckKeys(ch).Ok?
  {
    hide Commit, CustodyHash, MakeInner, ParseInner, CheckKeys, PrepareBindingHash, PrepareMessage, TerminalTree;
  }

  lemma PendingIsNonzero(s: State)
    requires Valid(s) && s.Pending()
    ensures s.member != ZERO_32 && s.coinId != ZERO_32
  {
    var named := [s.intent, s.coinId, s.original, s.replacement, s.member];
    assert named[1] in named && named[4] in named;
  }

  lemma PreparedIsBuilt(w: World, ch: Change, chosen: Option<int>, t: Transition)
    requires Inv(w) && Shaped(w) && StepPrepare(w, ch, chosen).Some?
    requires MakeInner(w.config, None, Some(w.state)).Ok?
    requires BuildTransition(MakeInner(w.config, None, Some(w.state)).value, ch) == Ok(t)
    ensures 0 <= ch.identity.slot < 3
    ensures Replaces(ch, NewIdentity(ch)) && |NewIdentity(ch).daily| == 33 && |NewIdentity(ch).recovery| == 48
    ensures ch.intent != ZERO_32 && ch.coinId != ZERO_32
    ensures t.binding.member != ZERO_32 && t.binding.intermediateCoin != ZERO_32
  {
    hide Commit, CustodyHash, MakeInner, BuildTransition, Inv, Replaces, ChildCoin, StepPrepare, CheckKeys, Recorded,
      Waiting, TreeHash, ParseInner, Valid;
    BuiltTransition(w, ch, t);
    InnerIsMade(w);
    BuiltIsSized(MakeInner(w.config, None, Some(w.state)).value, ch, w.config, w.state);
    KeysAreSized(ch);
    CommitNamesChange(w.config, w.state, ch);
    ValidHasThree(w.state) by { InvIsValid(w); }
    PendingIsNonzero(t.pending);
  }

  lemma InvIsValid(w: World)
    requires Inv(w)
    ensures Valid(w.state)
  {
  }

  // ---------------------------------------------------------------- every step

  /** In every world of the invariant a step exists exactly when it is enabled. */
  lemma StepIffEnabled(w: World, e: Event)
    requires Inv(w)
    ensures Shaped(w) && (w.state.Pending() ==> 0 <= w.state.slot < 3)
    ensures Step(w, e).Some? <==> Enabled(w, e)
  {
    hide StepPrepare, Preparable, NoAccident, Commit, CanonicalConfig, CompletionMessage, ChildCoin;
    match e
    case Prepare(ch, chosen) => PrepareIff(w, ch, chosen);
    case Operate(coadmin) =>
      if !w.state.Pending() && (coadmin == 1 || coadmin == 2) {
        IdleIsSettled(w, 0);
        IdleIsSettled(w, coadmin);
      }
    case FinishAlone(slot) =>
      if 0 <= slot < 3 {
        assert (w.state.Pending() ==> slot != w.state.slot) ==> Settled(w, slot);
      }
    case _ =>
  }

  /** The vaults whose coins a step spends. */
  function Spent(w: World, e: Event): set<int> {
    match e
    case Tick(_) => {}
    case Operate(coadmin) => {0, coadmin}
    case Prepare(ch, chosen) =>
      (match SelectedSlots(ch.kind, ch.identity.slot, chosen)
       case Ok((a, b)) => {a, b, ch.identity.slot}
       case Err(_) => {})
    case Cancel => {w.state.slot}
    case Complete => {w.state.slot}
    case FinishAlone(slot) => {slot}
  }

  /** The vault's coin is replaced by its child, at the custody it then carries, at the time of the step. */
  predicate Descends(c: Config, slot: int, v: Vault, v': Vault, now: int)
    requires |c.identityLaunchers| == 3 && 0 <= slot < 3
  {
    v'.coinId == ChildCoin(v.coinId, c.identityLaunchers[slot], v'.inner, slot) && v'.born == now
  }

  /** Spent coins are replaced by their own children, and the others stay. */
  predicate MovesOnly(w: World, w': World, spent: set<int>)
    requires Shaped(w) && Shaped(w')
  {
    && spent <= {0, 1, 2}
    && forall slot :: 0 <= slot < 3 ==>
         if slot in spent then Descends(w.config, slot, w.vaults[slot], w'.vaults[slot], w.clock)
         else w'.vaults[slot] == w.vaults[slot]
  }

  /** A step spends the coins of its approvers and of its target, each into its own child, and no other. */
  lemma StepMoves(w: World, e: Event, w': World)
    requires Inv(w) && Step(w, e) == Some(w')
    ensures Shaped(w) && Shaped(w') && MovesOnly(w, w', Spent(w, e))
  {
    hide StepPrepare, Commit, CanonicalConfig, CompletionMessage, ChildCoin, Live, Stranded, Settled, Valid;
    StepIsShaped(w, e, w');
    match e
    case Prepare(ch, chosen) => PrepareMoves(w, ch, chosen, w');
    case _ =>
  }

  lemma StepIsShaped(w: World, e: Event, w': World)
    requires Inv(w) && Step(w, e) == Some(w')
    ensures Shaped(w) && Shaped(w')
    ensures e == Cancel || e == Complete ==> 0 <= w.state.slot < 3
    ensures e.FinishAlone? ==> 0 <= e.slot < 3
  {
    hide StepPrepare, CanonicalConfig, CompletionMessage, ChildCoin, Live, Stranded, Settled;
    StepKeepsInvariant(w, e, w');
    InvIsShaped(w');
  }

  lemma PrepareMoves(w: World, ch: Change, chosen: Option<int>, w': World)
    requires Inv(w) && StepPrepare(w, ch, chosen) == Some(w')
    ensures Shaped(w) && Shaped(w') && MovesOnly(w, w', Spent(w, Prepare(ch, chosen)))
  {
    hide Commit, CustodyHash, MakeInner, BuildTransition, Inv, ChildCoin, SelectedSlots, Recorded, MovesOnly,
      Waiting, TreeHash, ParseInner, Prepared, PuzzleAcceptsPrepare;
    InvIsShaped(w);
    var t := BuildTransition(MakeInner(w.config, None, Some(w.state)).value, ch).value;
    BuiltTransition(w, ch, t);
    CommitNamesChange(w.config, w.state, ch);
    var (a, b) := SelectedSlots(ch.kind, ch.identity.slot, chosen).value;
    SelectedAreOrdered(ch.kind, ch.identity.slot, chosen);
    StepIsShaped(w, Prepare(ch, chosen), w') by { PrepareIsAStep(w, ch, chosen); }
    BundleMoves(w, t, a, b, w');
  }

  lemma PrepareIsAStep(w: World, ch: Change, chosen: Option<int>)
    requires Shaped(w)
    ensures Step(w, Prepare(ch, chosen)) == StepPrepare(w, ch, chosen)
  {
    hide StepPrepare;
  }

  lemma BundleMoves(w: World, t: Transition, a: int, b: int, w': World)
    requires Shaped(w) && 0 <= t.binding.slot < 3 && 0 <= a < b < 3 && Prepared(w, t, a, b) == Some(w') && Shaped(w')
    requires t.binding.intermediateCoin
          == ChildCoin(t.binding.currentCoin, w.config.identityLaunchers[t.binding.slot], t.binding.intermediate,
                       t.binding.slot)
    ensures MovesOnly(w, w', {a, b, t.binding.slot})
  {
    hide ChildCoin;
  }
}
