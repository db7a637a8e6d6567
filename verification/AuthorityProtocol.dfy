/**
 The key-change protocol: one authority singleton, three identity vaults and a clock.

 A step is what the driver can build and the puzzles of authority version 4 accept.  The world holds the
 authority's state and, for every vault, the inner puzzle hash its live coin really carries.
 */
module AuthorityProtocol {
  import opened Hashing
  import opened Results
  import opened Sequences
  import opened Clvm
  import opened Currying
  import opened AuthorityState
  import opened AuthorityMessages
  import opened Quorum

  const UINT64 := 0x1_0000_0000_0000_0000

  // ---------------------------------------------------------------- custody of an identity

  /** The member puzzle of a daily key, the custody puzzle of a pair of keys, and the intermediate custody puzzle
      of a daily key and a finish member, each under one authority launcher.  Upstream builds them. */
  const DAILY_MEMBER: Bytes -> Tree
  const SETTLED_CUSTODY: (Bytes32, int, Bytes, Bytes) -> Tree
  const INTERMEDIATE_CUSTODY: (Bytes32, int, Bytes, Tree) -> Tree
  const TERMINAL_ACTION_MOD: Tree

  /** An identity as the driver is given it: its slot, daily key and recovery key. */
  datatype Identity = Identity(slot: int, daily: Bytes, recovery: Bytes)

  function CustodyHash(launcher: Bytes32, id: Identity): Bytes32 {
    TreeHash(SETTLED_CUSTODY(launcher, id.slot, id.daily, id.recovery))
  }

  /** The timelocked completion: the only custody it can install, and what it announces. */
  datatype Finish = Finish(output: Bytes32, message: Bytes32, amount: int, delay: int)

  function FinishMember(f: Finish): Tree {
    Curry(TERMINAL_ACTION_MOD,
          [IntTree(ID_ACTION_COMPLETE), Atom(f.output), Atom(f.message), IntTree(f.amount), IntTree(f.delay),
           Atom(TreeHash(NIL))])
  }

  function IntermediateHash(launcher: Bytes32, id: Identity, f: Finish): Bytes32 {
    TreeHash(INTERMEDIATE_CUSTODY(launcher, id.slot, id.daily, FinishMember(f)))
  }

  function AmountFor(slot: int): int {
    if slot == 0 then 3 else if slot == 1 then 5 else 7
  }

  /** The id of the coin that a vault's coin `parent` leaves behind at custody `inner`. */
  function ChildCoin(parent: Bytes32, launcher: Bytes32, inner: Bytes32, slot: int): Bytes32 {
    Sha256(parent + SingletonFullPuzzleHash(launcher, inner) + IntToAtom(AmountFor(slot)))
  }

  // ---------------------------------------------------------------- the driver's transition

  datatype Change = Change(
    identity: Identity,
    kind: int,
    intent: Bytes32,
    coinId: Bytes32,
    newDaily: Bytes,
    newRecovery: Option<Bytes>)

  datatype Transition = Transition(
    binding: Binding,
    bindingHash: Bytes32,
    finish: Finish,
    pending: State,
    pendingInner: Tree,
    prepareMessage: Bytes32,
    cancelMessage: Bytes32)

  function RecoveryKey(ch: Change): Bytes {
    if ch.newRecovery.Some? then ch.newRecovery.value else ch.identity.recovery
  }

  /** Which keys a change of each kind must and must not replace. */
  function CheckKeys(ch: Change): Result<()> {
    if |RecoveryKey(ch)| != 48 then Err("replacement recovery key must be a BLS public key")
    else if ch.kind == PENDING_RECOVERY_KIT then
      if ch.newRecovery.None? then Err("recovery-kit rotation requires a replacement recovery key")
      else if RecoveryKey(ch) == ch.identity.recovery then Err("replacement recovery key must change")
      else if ch.newDaily != ch.identity.daily then Err("recovery-kit rotation cannot also change the daily key")
      else Ok(())
    else if ch.newDaily == ch.identity.daily then Err("replacement daily key must change")
    else if ch.kind == PENDING_ROUTINE && ch.newRecovery.Some? then
      Err("routine rotation cannot also change the recovery key")
    else Ok(())
  }

  /** The commitments of an accepted change. */
  function Commit(c: Config, s: State, ch: Change): (Binding, Finish, State)
    requires |s.custodies| == 3 && |c.identityLaunchers| == 3 && 0 <= ch.identity.slot < 3
  {
    var slot := ch.identity.slot;
    var launcher := c.identityLaunchers[slot];
    var original := CustodyHash(c.launcherId, ch.identity);
    var replacement := CustodyHash(c.launcherId, Identity(slot, ch.newDaily, RecoveryKey(ch)));
    var member := TreeHash(DAILY_MEMBER(ch.newDaily));
    var delay := DelayFor(ch.kind);
    var draft := State(s.custodies, s.version, ch.kind, slot, ch.intent, ZERO_32, original, replacement, member, delay);
    var message := TreeHash(TerminalTree(ID_ACTION_COMPLETE, draft, c.manifest));
    var finish := Finish(replacement, message, AmountFor(slot), delay);
    var intermediate := IntermediateHash(c.launcherId, ch.identity, finish);
    var intermediateCoin := ChildCoin(ch.coinId, launcher, intermediate, slot);
    var binding := Binding(ch.kind, slot, ch.intent, ch.coinId, intermediateCoin, original, intermediate,
                           replacement, member, c.manifest, s.version, s.version + 1, launcher);
    (binding, finish,
     draft.(custodies := s.custodies[slot := intermediate], version := s.version + 1, coinId := intermediateCoin))
  }

  /** The keys of the slot once the change is completed. */
  function NewIdentity(ch: Change): Identity {
    Identity(ch.identity.slot, ch.newDaily, RecoveryKey(ch))
  }

  /** A routine change replaces the daily key, a recovery kit the recovery key, and a lost key's recovery the daily
      key and the recovery key if one is given. */
  predicate Replaces(ch: Change, keys: Identity) {
    var before := ch.identity;
    && keys.slot == before.slot
    && if ch.kind == PENDING_ROUTINE then
         ch.newRecovery.None? && ch.newDaily == keys.daily != before.daily && keys.recovery == before.recovery
       else if ch.kind == PENDING_RECOVERY_KIT then
         && keys.daily == before.daily == ch.newDaily
         && ch.newRecovery == Some(keys.recovery) && keys.recovery != before.recovery
       else
         && ch.newDaily == keys.daily != before.daily
         && (ch.newRecovery == Some(keys.recovery) || (ch.newRecovery.None? && keys.recovery == before.recovery))
  }

  /** The driver accepts exactly the changes that replace what their kind allows, by a key of the right size. */
  lemma AcceptedKeysReplace(ch: Change)
    requires IsChange(ch.kind)
    ensures CheckKeys(ch).Ok? <==> exists keys :: Replaces(ch, keys) && |keys.recovery| == 48
    ensures CheckKeys(ch).Ok? ==> Replaces(ch, NewIdentity(ch))
  {
    if CheckKeys(ch).Ok? {
      assert Replaces(ch, NewIdentity(ch));
    }
  }

  /** Builds the initiate, wait and finish commitments of one change from the authority's inner puzzle. */
  function BuildTransition(inner: Tree, ch: Change): Result<Transition> {
    if !IsChange(ch.kind) then Err("identity transition kind must be routine, lost-key, or recovery-kit")
    else if !(0 <= ch.identity.slot < 3) then Err("identity slot must be 0, 1, or 2")
    else if |ch.newDaily| != 33 then Err("replacement daily key must be compressed secp256k1")
    else if ch.intent == ZERO_32 || ch.coinId == ZERO_32 then Err("identity transition ids must be nonzero")
    else match ParseInner(inner)
         case Err(reason) => Err(reason)
         case Ok((c, s)) => TransitionFrom(c, s, ch)
  }

  function TransitionFrom(c: Config, s: State, ch: Change): Result<Transition>
    requires 0 <= ch.identity.slot < 3 && IsChange(ch.kind)
  {
    if |s.custodies| != 3 || |c.identityLaunchers| != 3 then Err("malformed authority")
    else if s.Pending() then Err("another key change is already pending")
    else if s.custodies[ch.identity.slot] != CustodyHash(c.launcherId, ch.identity) then
      Err("identity custody does not match the authority's current state")
    else if CheckKeys(ch).Err? then Err(CheckKeys(ch).reason)
    else
      var (binding, finish, pending) := Commit(c, s, ch);
      match (PrepareBindingHash(binding), MakeInner(c, None, Some(pending)))
      case (Ok(hash), Ok(t)) =>
        var prepare := PrepareMessage(binding, AmountFor(ch.identity.slot));
        Ok(Transition(binding, hash, finish, pending, t, prepare,
                      TreeHash(TerminalTree(ID_ACTION_CANCEL, pending, c.manifest))))
      case (Err(reason), _) => Err(reason)
      case (_, Err(reason)) => Err(reason)
  }

  // ---------------------------------------------------------------- what the puzzle accepts

  /** The authority puzzle's conditions on a prepare that its driver has built. */
  predicate PuzzleAcceptsPrepare(c: Config, s: State, t: Transition, a: int, b: int) {
    var n := t.binding;
    && !s.Pending()
    && n.newVersion == s.version + 1 < UINT64
    && 0 <= n.slot < 3 <= |s.custodies| == |c.identityLaunchers|
    && n.intent != ZERO_32 && n.currentCoin != ZERO_32
    && n.intermediateCoin == ChildCoin(n.currentCoin, c.identityLaunchers[n.slot], n.intermediate, n.slot)
    && n.currentCoin != n.intermediateCoin
    && n.original == s.custodies[n.slot]
    && n.intermediate != ZERO_32 && n.intermediate != n.original
    && n.replacement != ZERO_32 && n.replacement != n.original && n.replacement != n.intermediate
    && ValidPrepareRecords(n.kind, a, b, n.slot)
    && Satisfied(RootFor(n.kind, n.slot), {a, b})
  }

  /** What the solution of a prepare tells the puzzle, besides the kind and the replacement key's member puzzle. */
  datatype PrepareArgs = PrepareArgs(
    slot: int, intent: Bytes32, currentCoin: Bytes32, intermediateCoin: Bytes32,
    intermediate: Bytes32, replacement: Bytes32)

  function PuzzleDelay(c: Config, kind: int): int {
    if kind == PENDING_LOST then c.lostDelay else c.routineDelay
  }

  /** The binding the puzzle computes from its own state and demands an announcement of. */
  function PuzzleBinding(c: Config, s: State, kind: int, a: PrepareArgs, member: Tree): Binding
    requires |s.custodies| == 3 && |c.identityLaunchers| == 3 && 0 <= a.slot < 3
  {
    Binding(kind, a.slot, a.intent, a.currentCoin, a.intermediateCoin, s.custodies[a.slot], a.intermediate,
            a.replacement, TreeHash(member), c.manifest, s.version, s.version + 1, c.identityLaunchers[a.slot])
  }

  /** The state of the authority coin that the puzzle creates. */
  function PuzzleSuccessor(c: Config, s: State, kind: int, a: PrepareArgs, member: Tree): State
    requires |s.custodies| == 3 && 0 <= a.slot < 3
  {
    State(s.custodies[a.slot := a.intermediate], s.version + 1, kind, a.slot, a.intent, a.intermediateCoin,
          s.custodies[a.slot], a.replacement, TreeHash(member), PuzzleDelay(c, kind))
  }

  // ---------------------------------------------------------------- the world

  /** A live identity coin: its id, the custody it carries, when it was created, and the finish member
      of that custody if it is an intermediate one. */
  datatype Vault = Vault(inner: Bytes32, finish: Option<Finish>, coinId: Bytes32, born: int)

  datatype World = World(config: Config, state: State, vaults: seq<Vault>, born: int, clock: int)

  datatype Event =
    | Tick(seconds: nat)
    | Operate(coadmin: int)
    | Prepare(change: Change, chosen: Option<int>)
    | Cancel
    | Complete
    | FinishAlone(slot: int)

  predicate Shaped(w: World) {
    |w.vaults| == 3 && |w.state.custodies| == 3 && |w.config.identityLaunchers| == 3
  }

  /** An identity coin that continues with its custody unchanged. */
  function Continue(c: Config, slot: int, v: Vault, now: int): Vault
    requires |c.identityLaunchers| == 3 && 0 <= slot < 3
  {
    v.(coinId := ChildCoin(v.coinId, c.identityLaunchers[slot], v.inner, slot), born := now)
  }

  /** An identity coin that continues with a custody that is not an intermediate one. */
  function Install(c: Config, slot: int, v: Vault, inner: Bytes32, now: int): Vault
    requires |c.identityLaunchers| == 3 && 0 <= slot < 3
  {
    Vault(inner, None, ChildCoin(v.coinId, c.identityLaunchers[slot], inner, slot), now)
  }

  function Approve(w: World, a: int, b: int): seq<Vault>
    requires Shaped(w) && 0 <= a < 3 && 0 <= b < 3 && a != b
  {
    w.vaults[a := Continue(w.config, a, w.vaults[a], w.clock)][b := Continue(w.config, b, w.vaults[b], w.clock)]
  }

  function StepOperate(w: World, coadmin: int): Option<World>
    requires Shaped(w)
  {
    if w.state.Pending() || w.state.version + 1 >= UINT64 || !ValidOperationalRecords(0, coadmin) then None
    else if w.vaults[0].inner != w.state.custodies[0] || w.vaults[coadmin].inner != w.state.custodies[coadmin] then None
    else Some(w.(state := Idle(w.state.custodies, w.state.version + 1), vaults := Approve(w, 0, coadmin),
      born := w.clock))
  }

  function StepPrepare(w: World, ch: Change, chosen: Option<int>): Option<World>
    requires Shaped(w)
  {
    match MakeInner(w.config, None, Some(w.state))
    case Err(_) => None
    case Ok(inner) =>
      match BuildTransition(inner, ch)
      case Err(_) => None
      case Ok(t) =>
        match SelectedSlots(ch.kind, ch.identity.slot, chosen)
        case Err(_) => None
        case Ok((a, b)) =>
          if !PuzzleAcceptsPrepare(w.config, w.state, t, a, b) then None
          else Prepared(w, t, a, b)
  }

  /** The bundle of an accepted prepare: the target coin must be the live one and the approvers' custody current. */
  function Prepared(w: World, t: Transition, a: int, b: int): Option<World>
    requires Shaped(w) && 0 <= t.binding.slot < 3 && 0 <= a < b < 3
  {
    var slot := t.binding.slot;
    if w.vaults[slot].coinId != t.binding.currentCoin || w.vaults[slot].inner != t.binding.original then None
    else if w.vaults[a].inner != w.state.custodies[a] || w.vaults[b].inner != w.state.custodies[b] then None
    else
      var target := Vault(t.binding.intermediate, Some(t.finish), t.binding.intermediateCoin, w.clock);
      Some(w.(state := t.pending, vaults := Approve(w, a, b)[slot := target], born := w.clock))
  }

  function StepCancel(w: World): Option<World>
    requires Shaped(w)
  {
    var s := w.state;
    if !s.Pending() || s.version + 1 >= UINT64 || !(0 <= s.slot < 3) then None
    else if w.vaults[s.slot].coinId != s.coinId || w.vaults[s.slot].inner != s.custodies[s.slot] then None
    else Some(w.(state := Idle(s.custodies[s.slot := s.original], s.version + 1),
                 vaults := w.vaults[s.slot := Install(w.config, s.slot, w.vaults[s.slot], s.original, w.clock)],
                 born := w.clock))
  }

  function StepComplete(w: World): Option<World>
    requires Shaped(w)
  {
    var s := w.state;
    if !s.Pending() || s.version + 1 >= UINT64 || !(0 <= s.slot < 3) then None
    else if w.clock < w.born + s.delay || w.vaults[s.slot].coinId != s.coinId then None
    else match w.vaults[s.slot].finish
         case None => None
         case Some(f) =>
           if Ok(f.message) != CompletionMessage(s, w.config.manifest) || w.clock < w.vaults[s.slot].born + f.delay then
             None
           else Some(w.(state := Idle(s.custodies[s.slot := s.replacement], s.version + 1),
                        vaults := w.vaults[s.slot := Install(w.config, s.slot, w.vaults[s.slot], f.output, w.clock)],
                        born := w.clock))
  }

  /** The finish member asks for the delay, its own coin and its amount, but not for a spend of the authority. */
  function StepFinishAlone(w: World, slot: int): Option<World>
    requires Shaped(w)
  {
    if !(0 <= slot < 3) || w.vaults[slot].finish.None? then None
    else
      var f := w.vaults[slot].finish.value;
      if w.clock < w.vaults[slot].born + f.delay then None
      else Some(w.(vaults := w.vaults[slot := Install(w.config, slot, w.vaults[slot], f.output, w.clock)]))
  }

  function Step(w: World, e: Event): Option<World> {
    if !Shaped(w) then None
    else match e
         case Tick(seconds) => Some(w.(clock := w.clock + seconds))
         case Operate(coadmin) => StepOperate(w, coadmin)
         case Prepare(ch, chosen) => StepPrepare(w, ch, chosen)
         case Cancel => StepCancel(w)
         case Complete => StepComplete(w)
         case FinishAlone(slot) => StepFinishAlone(w, slot)
  }

  function Run(w: World, es: seq<Event>): Option<World>
    decreases |es|
  {
    if es == [] then Some(w)
    else match Step(w, es[0])
         case None => None
         case Some(w') => Run(w', es[1..])
  }

  // ---------------------------------------------------------------- the joint invariant

  /** Outside the pending slot, authority and vault agree and the custody is settled. */
  predicate Settled(w: World, slot: int)
    requires Shaped(w) && 0 <= slot < 3
  {
    w.vaults[slot].inner == w.state.custodies[slot] && w.vaults[slot].finish == None
  }

  /** The pending coin is the vault's live coin, and its finish member is the one that was committed. */
  predicate Live(w: World)
    requires Shaped(w) && 0 <= w.state.slot < 3
  {
    var s, v := w.state, w.vaults[w.state.slot];
    && v.coinId == s.coinId
    && v.inner == s.custodies[s.slot]
    && v.born == w.born
    && v.finish.Some?
    && v.finish.value.output == s.replacement
    && v.finish.value.delay == s.delay
    && Ok(v.finish.value.message) == CompletionMessage(s, w.config.manifest)
  }

  /** The vault was finished without the authority: it carries the replacement and the pending coin is gone. */
  predicate Stranded(w: World)
    requires Shaped(w) && 0 <= w.state.slot < 3
  {
    var s, v := w.state, w.vaults[w.state.slot];
    v.inner == s.replacement && v.finish == None && w.clock >= w.born + s.delay
  }

  predicate ConfigIsGood(c: Config) {
    && CanonicalConfig(c)
    && |c.lostRoots| == 3 && |c.identityLaunchers| == 3 && Distinct(c.identityLaunchers)
    && c.manifest != ZERO_32 && c.launcherId != ZERO_32
  }

  predicate Inv(w: World) {
    && ConfigIsGood(w.config)
    && Shaped(w)
    && Valid(w.state)
    && w.born <= w.clock
    && (forall i :: 0 <= i < 3 && (w.state.Pending() ==> i != w.state.slot) ==> Settled(w, i))
    && (w.state.Pending() ==>
          && w.state.replacement != w.state.custodies[w.state.slot]
          && w.state.original != w.state.custodies[w.state.slot]
          && (Live(w) || Stranded(w)))
  }
}
