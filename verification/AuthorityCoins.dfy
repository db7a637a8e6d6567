/**
 What the protocol's hashes stand for: the coins of the vaults, and the custody puzzles that they carry.
 */
module AuthorityCoins {
  import opened Hashing
  import opened Results
  import opened Clvm
  import opened Currying
  import opened AuthorityState
  import opened AuthorityMessages
  import opened AuthorityProtocol
  import Ledger

  /** The id that driver and puzzle compute is that of the coin with the singleton around the custody puzzle, worth 3, 5
      or 7 mojos by slot. */
  lemma ChildCoinIsSingleton(parent: Bytes32, launcher: Bytes32, custody: Tree, slot: nat)
    requires slot < 3
    ensures ChildCoin(parent, launcher, TreeHash(custody), slot)
         == Ledger.Name(Ledger.Coin(parent, TreeHash(Curry(SINGLETON_MOD, [SingletonStruct(launcher), custody])),
                                    [3, 5, 7][slot]))
  {
    hide TreeHash, Curry, IntToAtom, SingletonFullPuzzleHash;
    SingletonHashIsWrappedTree(launcher, custody);
  }

  function FinishArguments(f: Finish): seq<Tree> {
    [IntTree(5), Atom(f.output), Atom(f.message), IntTree(f.amount), IntTree(f.delay), Atom(TreeHash(NIL))]
  }

  /** The hash of a finish member binds the custody it installs, its message, its amount and its delay. */
  lemma FinishMemberBinds(f: Finish, g: Finish)
    requires TreeHash(FinishMember(f)) == TreeHash(FinishMember(g))
    ensures f == g || Collision(FinishMember(f), FinishMember(g))
  {
    hide TreeHash, IntToAtom, Collision, Curry;
    TreeHashBinds(FinishMember(f), FinishMember(g));
    if FinishMember(f) == FinishMember(g) {
      var a, b := FinishArguments(f), FinishArguments(g);
      UncurryIsInverse(FinishMember(f), TERMINAL_ACTION_MOD, a);
      UncurryIsInverse(FinishMember(g), TERMINAL_ACTION_MOD, b);
      assert a[1] == b[1] && a[2] == b[2] && a[3] == b[3] && a[4] == b[4];
      IntTreeInjective(f.amount, g.amount);
      IntTreeInjective(f.delay, g.delay);
    }
  }

  /** One custody hash stands for one settled custody puzzle: of both keys, in the slot, under the authority. */
  lemma CustodyBinds(launcher: Bytes32, id: Identity, launcher': Bytes32, id': Identity)
    requires CustodyHash(launcher, id) == CustodyHash(launcher', id')
    ensures
      var custody := SETTLED_CUSTODY(launcher, id.slot, id.daily, id.recovery);
      var custody' := SETTLED_CUSTODY(launcher', id'.slot, id'.daily, id'.recovery);
      custody == custody' || Collision(custody, custody')
  {
    hide TreeHash, Collision;
    TreeHashBinds(SETTLED_CUSTODY(launcher, id.slot, id.daily, id.recovery),
                  SETTLED_CUSTODY(launcher', id'.slot, id'.daily, id'.recovery));
  }

  /** One intermediate hash stands for one waiting custody puzzle: of the daily key and the finish member. */
  lemma IntermediateBinds(launcher: Bytes32, id: Identity, f: Finish, launcher': Bytes32, id': Identity, f': Finish)
    requires IntermediateHash(launcher, id, f) == IntermediateHash(launcher', id', f')
    ensures
      var custody := INTERMEDIATE_CUSTODY(launcher, id.slot, id.daily, FinishMember(f));
      var custody' := INTERMEDIATE_CUSTODY(launcher', id'.slot, id'.daily, FinishMember(f'));
      custody == custody' || Collision(custody, custody')
  {
    hide TreeHash, Collision, FinishMember;
    TreeHashBinds(INTERMEDIATE_CUSTODY(launcher, id.slot, id.daily, FinishMember(f)),
                  INTERMEDIATE_CUSTODY(launcher', id'.slot, id'.daily, FinishMember(f')));
  }

  // ---------------------------------------------------------------- states

  /** The kinds are routine 1, lost key 2 and recovery kit 3; a lost key waits a week, the others a day. */
  lemma KindsMean(kind: int)
    ensures IsChange(kind) <==> 1 <= kind <= 3
    ensures DelayFor(kind) == if kind == 2 then 604_800 else 86_400
    ensures IsChange(PENDING_ROUTINE) && PENDING_ROUTINE == 1 && PENDING_LOST == 2 && PENDING_RECOVERY_KIT == 3
  {
  }

  /** The valid states: three nonzero custodies and a version, and either nothing pending and all its fields zero, or a
      change of a known kind in a slot with all its ids and the delay of its kind. */
  lemma ValidMeans(s: State)
    ensures Valid(s) <==>
              && s.version >= 1 && |s.custodies| == 3 && (forall i :: 0 <= i < 3 ==> s.custodies[i] != Zeros(32))
              && ((s.kind == 0 && s.slot == 0 && s.delay == 0 && AllZero(s)) || (1 <= s.kind <= 3 && 0 <= s.slot < 3
                  && NoneZero(s) && s.delay == if s.kind == 2 then 604_800 else 86_400))
  {
    var zero := ZERO_32;
    var ids := [s.intent, s.coinId, s.original, s.replacement, s.member];
    assert zero !in ids <==> NoneZero(s) by {
      assert ids[0] == s.intent && ids[1] == s.coinId && ids[2] == s.original && ids[3] == s.replacement;
      assert ids[4] == s.member;
    }
  }

  predicate AllZero(s: State) {
    s.intent == s.coinId == s.original == s.replacement == s.member == Zeros(32)
  }

  predicate NoneZero(s: State) {
    && s.intent != Zeros(32) && s.coinId != Zeros(32) && s.original != Zeros(32)
    && s.replacement != Zeros(32) && s.member != Zeros(32)
  }

  /** The genesis puzzle is that of the idle state of the three custodies at version 1; custodies that are given beside
      a state must be the state's. */
  lemma GenesisPuzzle(c: Config, custodies: seq<Bytes32>, s: State)
    requires |s.custodies| == 3
    ensures |custodies| == 3 ==>
              MakeInner(c, Some(custodies), None) == MakeInner(c, None, Some(Idle(custodies, 1)))
    ensures |custodies| != 3 ==> MakeInner(c, Some(custodies), None).Err?
    ensures MakeInner(c, None, None).Err?
    ensures custodies == s.custodies ==> MakeInner(c, Some(custodies), Some(s)) == MakeInner(c, None, Some(s))
    ensures custodies != s.custodies ==> MakeInner(c, Some(custodies), Some(s)).Err?
  {
    hide Valid, InnerMod, Pack, Spread, Curry, TreeHash;
  }

  /** The first word of each announcement: 3 for prepare, 4 for cancel, 5 for complete. */
  lemma AnnouncementsBegin(b: Binding, amount: int, s: State, manifest: Bytes32)
    ensures PrepareFields(b, amount)[0] == IntTree(3)
    ensures TerminalTree(ID_ACTION_CANCEL, s, manifest).Pair? && TerminalTree(ID_ACTION_COMPLETE, s, manifest).Pair?
    ensures TerminalTree(ID_ACTION_CANCEL, s, manifest).l == IntTree(4)
    ensures TerminalTree(ID_ACTION_COMPLETE, s, manifest).l == IntTree(5)
  {
    hide IntToAtom;
  }
}
