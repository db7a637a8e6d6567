/**
 What holds over every run of the key-change protocol.
 */
module AuthorityRuns {
  import opened Hashing
  import opened Results
  import opened Clvm
  import opened Currying
  import opened AuthorityState
  import opened AuthorityMessages
  import opened Quorum
  import opened AuthorityProtocol

  // ---------------------------------------------------------------- one step

  lemma InnerIsMade(w: World)
    requires Inv(w)
    ensures MakeInner(w.config, None, Some(w.state)).Ok?
    ensures ParseInner(MakeInner(w.config, None, Some(w.state)).value) == Ok((w.config, w.state))
  {
    hide Pack, Spread, Curry, ParseInner, IntToAtom, ListOf, TreeHash, Settled, Live, Stranded;
    ParseOfMake(w.config, w.state);
  }

  lemma TransitionCommits(c: Config, s: State, ch: Change, t: Transition)
    requires 0 <= ch.identity.slot < 3 && IsChange(ch.kind) && TransitionFrom(c, s, ch) == Ok(t)
    ensures !s.Pending() && |s.custodies| == 3 && |c.identityLaunchers| == 3
    ensures (t.binding, t.finish, t.pending) == Commit(c, s, ch)
    ensures Valid(t.pending)
    ensures Ok(t.finish.message) == CompletionMessage(t.pending, c.manifest)
    ensures MakeInner(c, None, Some(t.pending)) == Ok(t.pendingInner)
    ensures PrepareBindingHash(t.binding) == Ok(t.bindingHash)
    ensures t.prepareMessage == PrepareMessage(t.binding, AmountFor(ch.identity.slot))
    ensures Ok(t.cancelMessage) == CancelMessage(t.pending, c.manifest)
    ensures s.custodies[ch.identity.slot] == CustodyHash(c.launcherId, ch.identity) && Replaces(ch, NewIdentity(ch))
  {
    hide MakeInner, ChildCoin, CustodyHash, IntermediateHash, CheckKeys, TreeHash, ListOf, PrepareBindingHash,
      PrepareMessage, Valid, Replaces;
    MadeIsValid(c, t.pending);
    AcceptedKeysReplace(ch);
  }

  /** The pending state records the change: its kind, slot and intent, the custody of the old keys, and the custody and
      the daily member of the very keys that replace them. */
  predicate Recorded(c: Config, s: State, ch: Change) {
    && s.kind == ch.kind && s.slot == ch.identity.slot && s.intent == ch.intent && s.delay == DelayFor(ch.kind)
    && s.original == CustodyHash(c.launcherId, ch.identity)
    && Replaces(ch, NewIdentity(ch))
    && s.replacement == CustodyHash(c.launcherId, NewIdentity(ch))
    && s.member == TreeHash(DAILY_MEMBER(NewIdentity(ch).daily))
  }

  /** The custody to wait in: the old daily key's, with a member that after the delay can install the replacement. */
  predicate Waiting(c: Config, ch: Change, inner: Bytes32, f: Finish) {
    && inner == IntermediateHash(c.launcherId, ch.identity, f)
    && f.output == CustodyHash(c.launcherId, NewIdentity(ch))
    && f.amount == AmountFor(ch.identity.slot) && f.delay == DelayFor(ch.kind)
  }

  lemma CommitRecords(c: Config, s: State, ch: Change)
    requires |s.custodies| == 3 && |c.identityLaunchers| == 3 && 0 <= ch.identity.slot < 3
    requires s.custodies[ch.identity.slot] == CustodyHash(c.launcherId, ch.identity) && Replaces(ch, NewIdentity(ch))
    ensures var (binding, finish, pending) := Commit(c, s, ch);
      && Recorded(c, pending, ch) && Waiting(c, ch, binding.intermediate, finish)
      && binding.currentCoin == ch.coinId
      && binding.intermediateCoin
         == ChildCoin(ch.coinId, c.identityLaunchers[binding.slot], binding.intermediate, binding.slot)
  {
    hide ChildCoin, CustodyHash, IntermediateHash, TreeHash, Replaces;
  }

  /** What the driver's transition tells the puzzle. */
  function ArgsOf(b: Binding): PrepareArgs {
    PrepareArgs(b.slot, b.intent, b.currentCoin, b.intermediateCoin, b.intermediate, b.replacement)
  }

  /** Driver and puzzle compute one binding and one next state, each from its own data. */
  lemma PuzzleMeetsDriver(w: World, ch: Change, t: Transition)
    requires Inv(w) && MakeInner(w.config, None, Some(w.state)).Ok?
    requires BuildTransition(MakeInner(w.config, None, Some(w.state)).value, ch) == Ok(t)
    ensures 0 <= t.binding.slot < 3 && Shaped(w)
    ensures var member := DAILY_MEMBER(NewIdentity(ch).daily);
      && t.binding == PuzzleBinding(w.config, w.state, ch.kind, ArgsOf(t.binding), member)
      && t.pending == PuzzleSuccessor(w.config, w.state, ch.kind, ArgsOf(t.binding), member)
  {
    hide MakeInner, BuildTransition, ChildCoin, CustodyHash, IntermediateHash, CompletionMessage, TreeHash, Live,
      Stranded, Settled, Recorded, Waiting, Replaces;
    BuiltTransition(w, ch, t);
  }

  lemma MadeIsValid(c: Config, s: State)
    ensures MakeInner(c, None, Some(s)).Ok? ==> Valid(s)
  {
    hide Pack, Spread, Curry;
  }

  /** What a built transition commits to, in terms of the world it was built in. */
  lemma BuiltTransition(w: World, ch: Change, t: Transition)
    requires Inv(w) && MakeInner(w.config, None, Some(w.state)).Ok?
    requires BuildTransition(MakeInner(w.config, None, Some(w.state)).value, ch) == Ok(t)
    ensures !w.state.Pending() && IsChange(ch.kind) && 0 <= ch.identity.slot < 3
    ensures (t.binding, t.finish, t.pending) == Commit(w.config, w.state, ch)
    ensures Valid(t.pending)
    ensures Ok(t.finish.message) == CompletionMessage(t.pending, w.config.manifest)
    ensures MakeInner(w.config, None, Some(t.pending)) == Ok(t.pendingInner)
    ensures PrepareBindingHash(t.binding) == Ok(t.bindingHash)
    ensures t.prepareMessage == PrepareMessage(t.binding, AmountFor(ch.identity.slot))
    ensures Ok(t.cancelMessage) == CancelMessage(t.pending, w.config.manifest)
    ensures Shaped(w) && w.state.custodies[ch.identity.slot] == CustodyHash(w.config.launcherId, ch.identity)
    ensures Recorded(w.config, t.pending, ch) && Waiting(w.config, ch, t.binding.intermediate, t.finish)
    ensures t.binding.member == t.pending.member && t.binding.replacement == t.pending.replacement
  {
    hide MakeInner, ParseInner, TransitionFrom, Inv, CompletionMessage, CancelMessage, ChildCoin, CustodyHash,
      IntermediateHash, TreeHash, PrepareBindingHash, PrepareMessage, Valid, Recorded, Waiting, Replaces;
    InnerIsMade(w);
    TransitionCommits(w.config, w.state, ch, t);
    CommitRecords(w.config, w.state, ch);
    InvIsShaped(w);
  }

  lemma OperateKeepsInvariant(w: World, coadmin: int)
    requires Inv(w) && StepOperate(w, coadmin).Some?
    ensures Inv(StepOperate(w, coadmin).value)
  {
    hide ChildCoin, CanonicalConfig, CompletionMessage;
    var w' := StepOperate(w, coadmin).value;
    assert forall i :: 0 <= i < 3 ==> Settled(w, i) && w'.vaults[i].inner == w.vaults[i].inner
                                      && w'.vaults[i].finish == w.vaults[i].finish;
  }

  /** Approval leaves the other custodies as they were. */
  lemma PreparedVaults(w: World, t: Transition, a: int, b: int, w': World)
    requires Shaped(w) && 0 <= t.binding.slot < 3 && 0 <= a < b < 3 && Prepared(w, t, a, b) == Some(w')
    ensures w'.config == w.config && w'.state == t.pending && w'.clock == w'.born == w.clock && |w'.vaults| == 3
    ensures w'.vaults[t.binding.slot]
         == Vault(t.binding.intermediate, Some(t.finish), t.binding.intermediateCoin, w.clock)
    ensures forall i :: 0 <= i < 3 && i != t.binding.slot ==>
        w'.vaults[i].inner == w.vaults[i].inner && w'.vaults[i].finish == w.vaults[i].finish
  {
    hide ChildCoin;
  }

  /** A prepare enters the pending state, with the committed coin live and the old custody kept as the veto. */
  lemma PrepareEffect(w: World, ch: Change, chosen: Option<int>, w': World)
    requires Inv(w) && StepPrepare(w, ch, chosen) == Some(w')
    ensures 0 <= ch.identity.slot < 3 && IsChange(ch.kind)
    ensures Inv(w') && !w.state.Pending() && w'.state.Pending() && Live(w')
    ensures w'.config == w.config && w'.clock == w'.born == w.clock
    ensures w'.state == Commit(w.config, w.state, ch).2
    ensures w'.state.version == w.state.version + 1
    ensures w'.state.slot == ch.identity.slot && w'.state.kind == ch.kind
    ensures w'.state.original == w.state.custodies[ch.identity.slot]
    ensures Recorded(w.config, w'.state, ch)
    ensures w'.vaults[ch.identity.slot].finish.Some?
    ensures Waiting(w.config, ch, w'.vaults[ch.identity.slot].inner, w'.vaults[ch.identity.slot].finish.value)
    ensures w'.state.custodies[ch.identity.slot := w'.state.original] == w.state.custodies
    ensures forall i :: 0 <= i < 3 && i != ch.identity.slot ==> w'.vaults[i].inner == w.vaults[i].inner
  {
    hide MakeInner, BuildTransition, ChildCoin, CustodyHash, IntermediateHash, CanonicalConfig, CompletionMessage,
      Satisfied, TreeHash, DAILY_MEMBER, Recorded, Waiting, Prepared, SelectedSlots, PrepareBindingHash,
      PrepareMessage, CancelMessage;
    var t := BuildTransition(MakeInner(w.config, None, Some(w.state)).value, ch).value;
    BuiltTransition(w, ch, t);
    var (a, b) := SelectedSlots(ch.kind, ch.identity.slot, chosen).value;
    PreparedVaults(w, t, a, b, w');
    var slot := ch.identity.slot;
    forall i | 0 <= i < 3 && i != slot
      ensures Settled(w', i) && w'.vaults[i].inner == w.vaults[i].inner
    {
      assert Settled(w, i);
    }
  }

  lemma CancelKeepsInvariant(w: World)
    requires Inv(w) && StepCancel(w).Some?
    ensures Inv(StepCancel(w).value) && Live(w)
  {
    hide ChildCoin, CanonicalConfig, CompletionMessage;
    var w' := StepCancel(w).value;
    forall i | 0 <= i < 3 && i != w.state.slot
      ensures Settled(w', i)
    {
      assert Settled(w, i);
    }
  }

  lemma CompleteKeepsInvariant(w: World)
    requires Inv(w) && StepComplete(w).Some?
    ensures Inv(StepComplete(w).value) && Live(w) && w.clock >= w.born + w.state.delay
  {
    hide ChildCoin, CanonicalConfig, CompletionMessage;
    var w' := StepComplete(w).value;
    forall i | 0 <= i < 3 && i != w.state.slot
      ensures Settled(w', i)
    {
      assert Settled(w, i);
    }
  }

  /** Only the vault of a pending change can be finished alone, and that strands the change. */
  lemma FinishAloneEffect(w: World, slot: int)
    requires Inv(w) && StepFinishAlone(w, slot).Some?
    ensures w.state.Pending() && slot == w.state.slot && Live(w)
    ensures Inv(StepFinishAlone(w, slot).value) && Stranded(StepFinishAlone(w, slot).value)
    ensures StepFinishAlone(w, slot).value.state == w.state
  {
    hide ChildCoin, CanonicalConfig, CompletionMessage;
    var w' := StepFinishAlone(w, slot).value;
    assert (w.state.Pending() ==> slot != w.state.slot) ==> Settled(w, slot);
    forall i | 0 <= i < 3 && i != w.state.slot
      ensures Settled(w', i)
    {
      assert Settled(w, i);
    }
  }

  lemma TickKeepsInvariant(w: World, seconds: nat)
    requires Inv(w)
    ensures Inv(w.(clock := w.clock + seconds))
    ensures w.state.Pending() ==> Live(w.(clock := w.clock + seconds)) == Live(w)
  {
    hide CanonicalConfig, CompletionMessage;
    var w' := w.(clock := w.clock + seconds);
    forall i | 0 <= i < 3 && Settled(w, i)
      ensures Settled(w', i)
    {
    }
  }

  /** What every step keeps: the joint invariant, the configuration, and the direction of version and clock. */
  lemma StepKeepsInvariant(w: World, e: Event, w': World)
    requires Inv(w) && Step(w, e) == Some(w')
    ensures Inv(w')
    ensures w'.config == w.config && w'.clock == w.clock + Seconds(e)
    ensures w'.state.version == w.state.version + (if IsAuthoritySpend(e) then 1 else 0)
    ensures !IsAuthoritySpend(e) ==> w'.state == w.state && w'.born == w.born
    ensures IsAuthoritySpend(e) ==> w'.born == w.clock && (w'.state.Pending() <==> e.Prepare?)
  {
    hide StepPrepare, Live, Stranded, Settled, Commit, CanonicalConfig;
    match e
    case Tick(seconds) => TickKeepsInvariant(w, seconds);
    case Operate(coadmin) => OperateKeepsInvariant(w, coadmin);
    case Prepare(ch, chosen) => PrepareEffect(w, ch, chosen, w');
    case Cancel => CancelKeepsInvariant(w);
    case Complete => CompleteKeepsInvariant(w);
    case FinishAlone(slot) => FinishAloneEffect(w, slot);
  }

  predicate IsAuthoritySpend(e: Event) {
    !e.Tick? && !e.FinishAlone?
  }

  function Seconds(e: Event): nat {
    if e.Tick? then e.seconds else 0
  }

  // ---------------------------------------------------------------- whole runs

  function Spends(es: seq<Event>): nat {
    if es == [] then 0 else (if IsAuthoritySpend(es[0]) then 1 else 0) + Spends(es[1..])
  }

  function Elapsed(es: seq<Event>): nat {
    if es == [] then 0 else Seconds(es[0]) + Elapsed(es[1..])
  }

  /** The world a genesis bundle leaves behind. */
  function GenesisWorld(c: Config, ids: seq<Identity>, coins: seq<Bytes32>, now: int): World
    requires |ids| == 3 && |coins| == 3
  {
    var h0, h1, h2 := CustodyHash(c.launcherId, ids[0]), CustodyHash(c.launcherId, ids[1]),
        CustodyHash(c.launcherId, ids[2]);
    World(c, Idle([h0, h1, h2], 1),
          [Vault(h0, None, coins[0], now), Vault(h1, None, coins[1], now), Vault(h2, None, coins[2], now)], now, now)
  }

  lemma GenesisSatisfiesInvariant(c: Config, ids: seq<Identity>, coins: seq<Bytes32>, now: int)
    requires |ids| == 3 && |coins| == 3 && ConfigIsGood(c)
    requires ZERO_32 !in GenesisWorld(c, ids, coins, now).state.custodies
    ensures Inv(GenesisWorld(c, ids, coins, now))
  {
    hide CustodyHash, CanonicalConfig, TreeHash;
    var w := GenesisWorld(c, ids, coins, now);
    assert Settled(w, 0) && Settled(w, 1) && Settled(w, 2);
    assert w.state == Idle(w.state.custodies, 1);
  }

  /** In every reachable world the invariant holds, the configuration is the first one, and the version counts
      the authority's spends. */
  lemma {:induction false} RunKeepsInvariant(w: World, es: seq<Event>, w': World)
    requires Inv(w) && Run(w, es) == Some(w')
    ensures Inv(w') && w'.config == w.config
    ensures w'.state.version == w.state.version + Spends(es)
    ensures w'.clock == w.clock + Elapsed(es)
    decreases |es|
  {
    hide Step, Inv;
    if es != [] {
      var m := Step(w, es[0]).value;
      StepKeepsInvariant(w, es[0], m);
      RunKeepsInvariant(m, es[1..], w');
    }
  }

  lemma {:induction false} RunSplits(w: World, es: seq<Event>, fs: seq<Event>)
    ensures Run(w, es + fs) == match Run(w, es) case None => None case Some(m) => Run(m, fs)
    decreases |es|
  {
    hide Step;
    if es == [] {
      assert es + fs == fs;
    } else {
      assert (es + fs)[1..] == es[1..] + fs;
      if Step(w, es[0]).Some? {
        RunSplits(Step(w, es[0]).value, es[1..], fs);
      }
    }
  }

  lemma RunSnoc(w: World, es: seq<Event>, e: Event)
    ensures Run(w, es + [e]) == match Run(w, es) case None => None case Some(m) => Step(m, e)
  {
    hide Step;
    RunSplits(w, es, [e]);
    if Run(w, es).Some? {
      var m := Run(w, es).value;
      assert [e][1..] == [];
      assert Run(m, [e]) == match Step(m, e) case None => None case Some(w') => Run(w', [e][1..]);
    }
  }

  /** The authority's record of each slot is the inner hash the vault carries, unless that slot's change was
      finished without the authority; then the vault carries the committed replacement. */
  lemma RecordsMirrorVaults(w: World, es: seq<Event>, w': World, slot: int)
    requires Inv(w) && Run(w, es) == Some(w') && 0 <= slot < 3
    ensures Shaped(w')
    ensures w'.vaults[slot].inner ==
              if w'.state.Pending() && slot == w'.state.slot && !Live(w') then w'.state.replacement
              else w'.state.custodies[slot]
    ensures w'.state.Pending() && slot == w'.state.slot ==>
        (Live(w') <==> w'.vaults[slot].inner == w'.state.custodies[slot])
  {
    hide Run, CanonicalConfig, CompletionMessage;
    RunKeepsInvariant(w, es, w');
    if !(w'.state.Pending() && slot == w'.state.slot) {
      assert Settled(w', slot);
    }
  }

  predicate NoLoneFinish(es: seq<Event>) {
    forall e :: e in es ==> !e.FinishAlone?
  }

  /** When every finish is paired with the authority's completion, records and vaults never part. */
  lemma {:induction false} PairedRunsStayLive(w: World, es: seq<Event>, w': World)
    requires Inv(w) && (w.state.Pending() ==> Live(w))
    requires NoLoneFinish(es) && Run(w, es) == Some(w')
    ensures Inv(w') && (w'.state.Pending() ==> Live(w'))
    ensures forall slot :: 0 <= slot < 3 ==> w'.vaults[slot].inner == w'.state.custodies[slot]
    decreases |es|
  {
    hide Step, StepPrepare, CanonicalConfig, CompletionMessage;
    if es == [] {
      forall slot | 0 <= slot < 3
        ensures w'.vaults[slot].inner == w'.state.custodies[slot]
      {
        RecordsMirrorVaults(w, es, w', slot);
      }
    } else {
      var m := Step(w, es[0]).value;
      StepKeepsInvariant(w, es[0], m);
      StepStaysLive(w, es[0], m);
      PairedRunsStayLive(m, es[1..], w');
    }
  }

  lemma StepStaysLive(w: World, e: Event, w': World)
    requires Inv(w) && (w.state.Pending() ==> Live(w)) && !e.FinishAlone? && Step(w, e) == Some(w')
    ensures Shaped(w') && (w'.state.Pending() ==> 0 <= w'.state.slot < 3 && Live(w'))
  {
    hide StepPrepare, Live, Commit, CanonicalConfig;
    StepKeepsInvariant(w, e, w');
    match e
    case Tick(seconds) => TickKeepsInvariant(w, seconds);
    case Prepare(ch, chosen) => PrepareEffect(w, ch, chosen, w');
    case _ =>
  }

  // ---------------------------------------------------------------- freezing, delays, veto and completion

  /** While a change is pending no operational action and no second prepare exists. */
  lemma PendingFreezes(w: World, coadmin: int, ch: Change, chosen: Option<int>)
    requires Inv(w) && w.state.Pending()
    ensures Step(w, Operate(coadmin)) == None && Step(w, Prepare(ch, chosen)) == None
  {
    hide StepPrepare, CanonicalConfig;
    if StepPrepare(w, ch, chosen).Some? {
      PrepareEffect(w, ch, chosen, StepPrepare(w, ch, chosen).value);
    }
  }

  predicate OnlyTicks(es: seq<Event>) {
    forall e :: e in es ==> e.Tick?
  }

  /** `es[i]` is the prepare of the change that is still pending at the end of `es`. */
  predicate Opened(es: seq<Event>, i: int, w: World)
    requires Shaped(w)
  {
    && 0 <= i < |es| && es[i].Prepare?
    && Recorded(w.config, w.state, es[i].change)
    && (forall k :: i < k < |es| ==> !IsAuthoritySpend(es[k]))
    && w.clock - w.born == Elapsed(es[i + 1..])
    && (0 <= w.state.slot < 3 && Live(w) ==> OnlyTicks(es[i + 1..]))
  }

  lemma {:induction false} ElapsedSplits(es: seq<Event>, fs: seq<Event>)
    ensures Elapsed(es + fs) == Elapsed(es) + Elapsed(fs)
  {
    if es == [] {
      assert es + fs == fs;
    } else {
      assert (es + fs)[1..] == es[1..] + fs;
      ElapsedSplits(es[1..], fs);
    }
  }

  /** A pending change was opened by a prepare of its own kind and slot, with no authority spend since. */
  lemma {:induction false} PendingWasOpened(w: World, es: seq<Event>, w': World) returns (i: int)
    requires Inv(w) && !w.state.Pending() && Run(w, es) == Some(w') && w'.state.Pending()
    ensures Inv(w') && Opened(es, i, w')
    decreases |es|
  {
    hide Step, StepPrepare, Inv, Live, Commit;
    RunKeepsInvariant(w, es, w');
    if es == [] {
      assert false;
    } else {
      var front, e := es[..|es| - 1], es[|es| - 1];
      assert es == front + [e];
      RunSnoc(w, front, e);
      var m := Run(w, front).value;
      RunKeepsInvariant(w, front, m);
      StepKeepsInvariant(m, e, w');
      if e.Prepare? {
        i := |front|;
        PrepareStepEffect(m, e.change, e.chosen, w');
        assert es[i + 1..] == [];
      } else {
        i := PendingWasOpened(w, front, m);
        OpenedExtends(front, i, m, e, w');
      }
    }
  }

  lemma PrepareStepEffect(w: World, ch: Change, chosen: Option<int>, w': World)
    requires Inv(w) && Step(w, Prepare(ch, chosen)) == Some(w')
    ensures StepPrepare(w, ch, chosen) == Some(w') && Shaped(w')
    ensures Recorded(w'.config, w'.state, ch) && w'.clock == w'.born
  {
    hide StepPrepare, Live, Commit, CanonicalConfig, Recorded, Waiting;
    PrepareEffect(w, ch, chosen, w');
  }

  lemma OpenedExtends(es: seq<Event>, i: int, w: World, e: Event, w': World)
    requires Inv(w) && Opened(es, i, w) && Step(w, e) == Some(w') && w.state.Pending() && !IsAuthoritySpend(e)
    ensures Shaped(w') && Opened(es + [e], i, w')
  {
    hide Step, Inv, Live;
    StepKeepsInvariant(w, e, w');
    LiveOnlyThroughTicks(w, e, w');
    var later := es[i + 1..];
    assert (es + [e])[i + 1..] == later + [e];
    ElapsedSplits(later, [e]);
    assert Elapsed([e]) == Seconds(e) + Elapsed([e][1..]);
  }

  lemma LiveOnlyThroughTicks(w: World, e: Event, w': World)
    requires Inv(w) && Step(w, e) == Some(w') && w.state.Pending() && !IsAuthoritySpend(e)
    ensures Shaped(w) && Shaped(w') && 0 <= w.state.slot < 3 && w'.state == w.state
    ensures Live(w') ==> e.Tick? && Live(w)
  {
    hide StepPrepare, CanonicalConfig, CompletionMessage;
    match e {
      case Tick(seconds) => TickKeepsInvariant(w, seconds);
      case FinishAlone(slot) => FinishAloneEffect(w, slot);
    }
  }

  /** A completion comes after its own prepare, with nothing but time between, and at least the kind's delay of it. */
  lemma CompletionWaits(w: World, es: seq<Event>, w': World) returns (i: int)
    requires Inv(w) && !w.state.Pending() && Run(w, es + [Complete]) == Some(w')
    ensures 0 <= i < |es| && es[i].Prepare?
    ensures OnlyTicks(es[i + 1..])
    ensures Elapsed(es[i + 1..]) >= if es[i].change.kind == PENDING_LOST then 604_800 else 86_400
  {
    hide Step, Inv, Live, Run;
    RunSnoc(w, es, Complete);
    var m := Run(w, es).value;
    RunKeepsInvariant(w, es, m);
    CompleteStepNeeds(m);
    i := PendingWasOpened(w, es, m);
  }

  lemma CompleteStepNeeds(w: World)
    requires Inv(w) && Step(w, Complete).Some?
    ensures w.state.Pending() && 0 <= w.state.slot < 3 && Live(w)
    ensures w.clock - w.born >= if w.state.kind == PENDING_LOST then 604_800 else 86_400
  {
    hide Step, Install, CanonicalConfig, CompletionMessage;
    TerminalSteps(w);
  }

  lemma {:induction false} TicksPass(w: World, es: seq<Event>)
    requires Shaped(w) && OnlyTicks(es)
    ensures Run(w, es) == Some(w.(clock := w.clock + Elapsed(es)))
    decreases |es|
  {
    hide StepPrepare, StepOperate, StepCancel, StepComplete, StepFinishAlone;
    if es != [] {
      assert es[0] in es;
      TicksPass(w.(clock := w.clock + es[0].seconds), es[1..]);
    }
  }

  /** Prepare, wait and cancel: all three custodies are what they were, in the authority and in the vaults. */
  lemma VetoRestores(w: World, ch: Change, chosen: Option<int>, wait: seq<Event>, w': World)
    requires Inv(w) && OnlyTicks(wait)
    requires Run(w, [Prepare(ch, chosen)] + (wait + [Cancel])) == Some(w')
    ensures Inv(w') && !w'.state.Pending()
    ensures w'.state == Idle(w.state.custodies, w.state.version + 2)
    ensures Shaped(w) && Shaped(w')
    ensures forall slot :: 0 <= slot < 3 ==> w'.vaults[slot].inner == w.vaults[slot].inner
  {
    hide Step, StepPrepare, Inv, Live, Commit, CustodyHash, Run;
    InvIsShaped(w);
    var m := AfterWaiting(w, ch, chosen, wait, Cancel, w');
    CancelEffect(m, w');
    StepKeepsInvariant(m, Cancel, w');
    InvIsShaped(w');
    forall slot | 0 <= slot < 3
      ensures Shaped(w) && Shaped(w') && w'.vaults[slot].inner == w.vaults[slot].inner
    {
      SettledEverywhere(w, slot);
      SettledEverywhere(w', slot);
    }
  }

  lemma SettledEverywhere(w: World, slot: int)
    requires Inv(w) && !w.state.Pending() && 0 <= slot < 3
    ensures Shaped(w) && w.vaults[slot].inner == w.state.custodies[slot]
  {
    hide CanonicalConfig;
    assert Settled(w, slot);
  }

  /** The world in which a change that was prepared in `w` and then waited for is ended. */
  lemma AfterWaiting(w: World, ch: Change, chosen: Option<int>, wait: seq<Event>, end: Event, w': World)
    returns (m: World)
    requires Inv(w) && OnlyTicks(wait)
    requires Run(w, [Prepare(ch, chosen)] + (wait + [end])) == Some(w')
    ensures Inv(m) && !w.state.Pending() && Step(m, end) == Some(w')
    ensures Shaped(w) && 0 <= ch.identity.slot < 3 && m.state.Pending() && m.state.slot == ch.identity.slot
    ensures Live(m)
    ensures m.state.version == w.state.version + 1
    ensures m.state.custodies[m.state.slot := m.state.original] == w.state.custodies
    ensures m.state.replacement
         == CustodyHash(w.config.launcherId, NewIdentity(ch))
  {
    hide Step, StepPrepare, Inv, Live, Commit, CustodyHash, Run;
    InvIsShaped(w);
    var p := PrepareThen(w, ch, chosen, wait + [end], w');
    PrepareEffect(w, ch, chosen, p);
    InvIsShaped(p);
    RunSnoc(p, wait, end);
    TicksPass(p, wait);
    TickKeepsInvariant(p, Elapsed(wait));
    m := p.(clock := p.clock + Elapsed(wait));
  }

  lemma PrepareThen(w: World, ch: Change, chosen: Option<int>, rest: seq<Event>, w': World) returns (p: World)
    requires Shaped(w)
    requires Run(w, [Prepare(ch, chosen)] + rest) == Some(w')
    ensures StepPrepare(w, ch, chosen) == Some(p) && Run(p, rest) == Some(w')
  {
    hide StepPrepare;
    assert ([Prepare(ch, chosen)] + rest)[1..] == rest;
    p := Step(w, Prepare(ch, chosen)).value;
  }

  lemma EmptyRun(w: World)
    ensures Run(w, []) == Some(w)
  {
  }

  lemma InvIsShaped(w: World)
    requires Inv(w)
    ensures Shaped(w)
  {
    hide CanonicalConfig;
  }

  lemma TerminalSteps(w: World)
    requires Shaped(w)
    ensures Step(w, Cancel) == StepCancel(w) && Step(w, Complete) == StepComplete(w)
  {
    hide StepCancel, StepComplete;
  }

  lemma PrepareIsStep(w: World, ch: Change, chosen: Option<int>, w': World)
    requires Inv(w) && Step(w, Prepare(ch, chosen)) == Some(w')
    ensures Shaped(w) && StepPrepare(w, ch, chosen) == Some(w')
  {
    hide StepPrepare, CanonicalConfig;
  }

  lemma CancelEffect(w: World, w': World)
    requires Inv(w) && Step(w, Cancel) == Some(w')
    ensures Shaped(w) && 0 <= w.state.slot < 3
    ensures w'.state == Idle(w.state.custodies[w.state.slot := w.state.original], w.state.version + 1)
  {
    hide Step, Install, Inv;
    InvIsShaped(w);
    TerminalSteps(w);
  }

  lemma CompleteEffect(w: World, w': World)
    requires Inv(w) && Step(w, Complete) == Some(w')
    ensures Shaped(w) && 0 <= w.state.slot < 3
    ensures w'.state == Idle(w.state.custodies[w.state.slot := w.state.replacement], w.state.version + 1)
  {
    hide Step, Install, Inv, CompletionMessage;
    InvIsShaped(w);
    TerminalSteps(w);
  }

  /** Prepare, wait and complete: exactly one custody changes, to that of the committed keys. */
  lemma CompletionInstalls(w: World, ch: Change, chosen: Option<int>, wait: seq<Event>, w': World)
    requires Inv(w) && OnlyTicks(wait)
    requires Run(w, [Prepare(ch, chosen)] + (wait + [Complete])) == Some(w')
    ensures Inv(w') && 0 <= ch.identity.slot < 3 && !w'.state.Pending()
    ensures
      var replacement := CustodyHash(w.config.launcherId, NewIdentity(ch));
      && w'.state == Idle(w.state.custodies[ch.identity.slot := replacement], w.state.version + 2)
      && w'.vaults[ch.identity.slot].inner == replacement
      && forall slot :: 0 <= slot < 3 && slot != ch.identity.slot ==> w'.vaults[slot].inner == w.vaults[slot].inner
  {
    hide Step, StepPrepare, Inv, Live, Commit, CustodyHash, Run;
    var m := AfterWaiting(w, ch, chosen, wait, Complete, w');
    CompleteEffect(m, w');
    StepKeepsInvariant(m, Complete, w');
    forall slot | 0 <= slot < 3
      ensures Shaped(w) && Shaped(w') && w'.vaults[slot].inner == w'.state.custodies[slot]
      ensures w.vaults[slot].inner == w.state.custodies[slot]
    {
      SettledEverywhere(w, slot);
      SettledEverywhere(w', slot);
    }
  }

  // ---------------------------------------------------------------- the way back to idle

  /** No authority spend is possible any more. */
  predicate Stuck(w: World)
    requires Shaped(w) && 0 <= w.state.slot < 3
  {
    w.state.Pending() && (!Live(w) || w.state.version + 1 >= UINT64)
  }

  lemma StuckStaysStuck(w: World, e: Event, w': World)
    requires Inv(w) && w.state.Pending() && Stuck(w) && Step(w, e) == Some(w')
    ensures Inv(w') && w'.state == w.state && Stuck(w')
  {
    hide StepPrepare, CanonicalConfig, CompletionMessage, Commit;
    StepKeepsInvariant(w, e, w');
    match e
    case Tick(seconds) => TickKeepsInvariant(w, seconds);
    case FinishAlone(slot) => FinishAloneEffect(w, slot);
    case Prepare(ch, chosen) => PrepareEffect(w, ch, chosen, w');
    case Cancel => CancelKeepsInvariant(w);
    case Complete => CompleteKeepsInvariant(w);
    case Operate(_) =>
  }

  lemma {:induction false} StuckForever(w: World, es: seq<Event>, w': World)
    requires Inv(w) && w.state.Pending() && Stuck(w) && Run(w, es) == Some(w')
    ensures w'.state == w.state
    decreases |es|
  {
    hide Step, Inv, Stuck;
    if es != [] {
      var m := Step(w, es[0]).value;
      StuckStaysStuck(w, es[0], m);
      StuckForever(m, es[1..], w');
    }
  }

  /** From a live pending world the veto leads to idle at once, and completion after the delay. */
  lemma BothWaysBack(w: World)
    requires Inv(w) && w.state.Pending() && Live(w) && w.state.version + 1 < UINT64
    ensures Step(w, Cancel).Some? && !Step(w, Cancel).value.state.Pending()
    ensures Step(w.(clock := w.clock + DelayFor(w.state.kind)), Complete).Some?
    ensures !Step(w.(clock := w.clock + DelayFor(w.state.kind)), Complete).value.state.Pending()
  {
    hide Step, Install, CanonicalConfig, CompletionMessage;
    TerminalSteps(w);
    TerminalSteps(w.(clock := w.clock + DelayFor(w.state.kind)));
  }

  /** A pending world can return to idle exactly when its committed coin is still the vault's live coin and the
      version counter has room. */
  lemma WayBackExists(w: World)
    requires Inv(w) && w.state.Pending()
    ensures 0 <= w.state.slot < 3 && Shaped(w)
    ensures (exists es, w' :: Run(w, es) == Some(w') && !w'.state.Pending())
       <==> Live(w) && w.state.version + 1 < UINT64
  {
    hide Step, Live, CanonicalConfig;
    if Live(w) && w.state.version + 1 < UINT64 {
      BothWaysBack(w);
      RunSnoc(w, [], Cancel);
      EmptyRun(w);
      assert [] + [Cancel] == [Cancel];
      assert Run(w, [Cancel]) == Some(Step(w, Cancel).value);
    } else {
      forall es, w' | Run(w, es) == Some(w')
        ensures w'.state.Pending()
      {
        StuckForever(w, es, w');
      }
    }
  }

  /** The lone finish is possible as soon as the delay has passed, and it closes every way back. */
  lemma LoneFinishStrands(w: World)
    requires Inv(w) && w.state.Pending() && Live(w)
    ensures
      var later := w.(clock := w.clock + DelayFor(w.state.kind));
      && Step(later, FinishAlone(w.state.slot)).Some?
      && forall es, w' :: Run(Step(later, FinishAlone(w.state.slot)).value, es) == Some(w') ==> w'.state == w.state
  {
    hide Run, ChildCoin, CanonicalConfig, CompletionMessage;
    var later := w.(clock := w.clock + DelayFor(w.state.kind));
    TickKeepsInvariant(w, DelayFor(w.state.kind));
    var m := Step(later, FinishAlone(w.state.slot)).value;
    FinishAloneEffect(later, w.state.slot);
    forall es, w' | Run(m, es) == Some(w')
      ensures w'.state == w.state
    {
      StuckForever(m, es, w');
    }
  }

  // ---------------------------------------------------------------- bindings

  /** Two prepares of one run never share a binding, short of a collision. */
  lemma BindingsNeverRepeat(w: World, es: seq<Event>, first: Event, fs: seq<Event>, second: Event,
                            w1: World, w2: World)
    requires Inv(w) && first.Prepare? && second.Prepare?
    requires Run(w, es) == Some(w1) && Run(w, es + [first] + fs) == Some(w2)
    requires Step(w1, first).Some? && Step(w2, second).Some?
    ensures Inv(w1) && Inv(w2) && 0 <= first.change.identity.slot < 3 && 0 <= second.change.identity.slot < 3
    ensures
      var b1 := Commit(w1.config, w1.state, first.change).0;
      var b2 := Commit(w2.config, w2.state, second.change).0;
      PrepareBindingHash(b1) == PrepareBindingHash(b2) && PrepareBindingHash(b1).Ok? ==>
        Collision(BindingTree(b1), BindingTree(b2))
  {
    hide Step, StepPrepare, Inv, Live, Run, Commit, Collision, BindingTree, TreeHash, CustodyHash;
    RunKeepsInvariant(w, es, w1);
    RunKeepsInvariant(w, es + [first] + fs, w2);
    SpendsSplit(es + [first], fs);
    SpendsSplit(es, [first]);
    assert Spends([first]) == 1 + Spends([first][1..]);
    PrepareIsStep(w1, first.change, first.chosen, Step(w1, first).value);
    PrepareIsStep(w2, second.change, second.chosen, Step(w2, second).value);
    PrepareEffect(w1, first.change, first.chosen, Step(w1, first).value);
    PrepareEffect(w2, second.change, second.chosen, Step(w2, second).value);
    var b1 := Commit(w1.config, w1.state, first.change).0;
    var b2 := Commit(w2.config, w2.state, second.change).0;
    BindingNamesVersion(w1, first.change);
    BindingNamesVersion(w2, second.change);
    PrepareBindingBinds(b1, b2);
  }

  lemma BindingNamesVersion(w: World, ch: Change)
    requires Shaped(w) && 0 <= ch.identity.slot < 3
    ensures Commit(w.config, w.state, ch).0.currentVersion == w.state.version
  {
    hide TreeHash, ChildCoin, CustodyHash, IntermediateHash;
  }

  lemma {:induction false} SpendsSplit(es: seq<Event>, fs: seq<Event>)
    ensures Spends(es + fs) == Spends(es) + Spends(fs)
  {
    if es == [] {
      assert es + fs == fs;
    } else {
      assert (es + fs)[1..] == es[1..] + fs;
      SpendsSplit(es[1..], fs);
    }
  }

  // ---------------------------------------------------------------- the successor coin

  /** The puzzle hash the authority puzzle computes for its successor from argument hashes alone. */
  function SuccessorPuzzleHash(mod: Tree, c: Config, s: State): Bytes32
    requires |c.identityLaunchers| == 3
  {
    CurryHash(TreeHash(mod), Hashes(Spread(Pack(TreeHash(mod), c, s))))
  }

  /** The puzzle recreates itself at exactly the inner puzzle the driver parses and makes. */
  lemma SuccessorIsDriversPuzzle(c: Config, s: State, mod: Tree)
    requires MakeInner(c, None, Some(s)).Ok? && InnerMod(c.puzzleVersion) == Ok(mod)
    ensures |c.identityLaunchers| == 3
    ensures SuccessorPuzzleHash(mod, c, s) == TreeHash(MakeInner(c, None, Some(s)).value)
  {
    hide Hashes, Spread, Pack, TreeHash, Curry, CurryHash;
    CurryHashIsTreeHash(mod, Spread(Pack(TreeHash(mod), c, s)));
  }
}
