/**
 The hashes that tie the spends of one key change to each other, and what each of them binds.
 */
module AuthorityMessages {
  import opened Hashing
  import opened Results
  import opened Clvm
  import opened AuthorityState

  /** What a prepare commits to; the delay follows from the kind. */
  datatype Binding = Binding(
    kind: int, slot: int, intent: Bytes32,
    currentCoin: Bytes32, intermediateCoin: Bytes32,
    original: Bytes32, intermediate: Bytes32, replacement: Bytes32, member: Bytes32,
    manifest: Bytes32, currentVersion: int, newVersion: int, identityLauncher: Bytes32)

  function BindingFields(b: Binding): seq<Tree> {
    [IntTree(b.kind), IntTree(b.slot), Atom(b.intent), Atom(b.currentCoin), Atom(b.intermediateCoin),
     Atom(b.original), Atom(b.intermediate), Atom(b.replacement), Atom(b.member), IntTree(DelayFor(b.kind)),
     Atom(b.manifest), IntTree(b.currentVersion), IntTree(b.newVersion), Atom(b.identityLauncher)]
  }

  function BindingTree(b: Binding): Tree {
    ListOf(BindingFields(b))
  }

  function PrepareBindingHash(b: Binding): Result<Bytes32> {
    if !IsChange(b.kind) then Err("pending kind must be routine, lost-key, or recovery-kit")
    else if !(0 <= b.slot < 3) then Err("slot must be 0, 1, or 2")
    else Ok(TreeHash(BindingTree(b)))
  }

  lemma BindingFieldsInjective(b: Binding, b': Binding)
    requires BindingFields(b) == BindingFields(b')
    ensures b == b'
  {
    hide IntToAtom;
    var f, f' := BindingFields(b), BindingFields(b');
    IntTreeInjective(b.kind, b'.kind);
    assert f[1] == f'[1] && f[11] == f'[11] && f[12] == f'[12];
    IntTreeInjective(b.slot, b'.slot);
    IntTreeInjective(b.currentVersion, b'.currentVersion);
    IntTreeInjective(b.newVersion, b'.newVersion);
    assert f[2] == f'[2] && f[3] == f'[3] && f[4] == f'[4] && f[5] == f'[5] && f[6] == f'[6];
    assert f[7] == f'[7] && f[8] == f'[8] && f[10] == f'[10] && f[13] == f'[13];
  }

  /** Equal bindings mean that all fourteen fields are equal, or there is a collision. */
  lemma PrepareBindingBinds(b: Binding, b': Binding)
    ensures TreeHash(BindingTree(b)) == TreeHash(BindingTree(b')) ==>
        b == b' || Collision(BindingTree(b), BindingTree(b'))
  {
    hide BindingFields, TreeHash, ListOf, Collision;
    if TreeHash(BindingTree(b)) == TreeHash(BindingTree(b')) {
      FieldsBind(BindingFields(b), BindingFields(b'));
      if BindingFields(b) == BindingFields(b') {
        BindingFieldsInjective(b, b');
      }
    }
  }

  /** What the target vault announces when it enters the intermediate custody; a lost-key change says less. */
  function PrepareFields(b: Binding, amount: int): seq<Tree> {
    if b.kind == PENDING_LOST then [IntTree(ID_ACTION_PREPARE), Atom(b.intermediate), IntTree(amount)]
    else [IntTree(ID_ACTION_PREPARE), IntTree(b.kind), IntTree(b.slot), Atom(b.intent), Atom(b.currentCoin),
          Atom(b.intermediateCoin), Atom(b.intermediate), Atom(b.replacement), Atom(b.manifest)]
  }

  function PrepareMessage(b: Binding, amount: int): Bytes32 {
    TreeHash(ListOf(PrepareFields(b, amount)))
  }

  lemma PrepareFieldsBind(b: Binding, amount: int, b': Binding, amount': int)
    requires PrepareFields(b, amount) == PrepareFields(b', amount')
    ensures b.intermediate == b'.intermediate && (b.kind == PENDING_LOST <==> b'.kind == PENDING_LOST)
    ensures b.kind == PENDING_LOST ==> amount == amount'
    ensures b.kind != PENDING_LOST ==>
              && b.kind == b'.kind && b.slot == b'.slot && b.intent == b'.intent && b.manifest == b'.manifest
              && b.currentCoin == b'.currentCoin && b.intermediateCoin == b'.intermediateCoin
              && b.replacement == b'.replacement
  {
    hide IntToAtom;
    var f, f' := PrepareFields(b, amount), PrepareFields(b', amount');
    assert |f| == |f'| && f[1] == f'[1] && f[2] == f'[2];
    if b.kind == PENDING_LOST {
      IntTreeInjective(amount, amount');
    } else {
      IntTreeInjective(b.kind, b'.kind);
      IntTreeInjective(b.slot, b'.slot);
      assert f[3] == f'[3] && f[4] == f'[4] && f[5] == f'[5] && f[6] == f'[6] && f[7] == f'[7] && f[8] == f'[8];
    }
  }

  /**
   Equal prepare messages name one intermediate custody, with the amount if a key is lost, and otherwise with the kind,
   the slot, the intent, both coins, the replacement and the manifest; or there is a collision.
   */
  lemma PrepareMessageBinds(b: Binding, amount: int, b': Binding, amount': int)
    requires PrepareMessage(b, amount) == PrepareMessage(b', amount')
    ensures
      || (&& b.intermediate == b'.intermediate && (b.kind == PENDING_LOST <==> b'.kind == PENDING_LOST)
          && (b.kind == PENDING_LOST ==> amount == amount')
          && (b.kind != PENDING_LOST ==>
                && b.kind == b'.kind && b.slot == b'.slot && b.intent == b'.intent && b.manifest == b'.manifest
                && b.currentCoin == b'.currentCoin && b.intermediateCoin == b'.intermediateCoin
                && b.replacement == b'.replacement))
      || Collision(ListOf(PrepareFields(b, amount)), ListOf(PrepareFields(b', amount')))
  {
    hide PrepareFields, TreeHash, ListOf, Collision;
    FieldsBind(PrepareFields(b, amount), PrepareFields(b', amount'));
    if PrepareFields(b, amount) == PrepareFields(b', amount') {
      PrepareFieldsBind(b, amount, b', amount');
    }
  }

  // ---------------------------------------------------------------- identity actions

  /** The announcement of a terminal action: which pending change it ends, and how. */
  function TerminalTree(action: int, s: State, manifest: Bytes32): Tree {
    ListOf([IntTree(action), IntTree(s.kind), IntTree(s.slot), Atom(s.intent), Atom(s.original),
            Atom(s.replacement), Atom(s.member), Atom(manifest)])
  }

  function CompletionMessage(s: State, manifest: Bytes32): Result<Bytes32> {
    if !Valid(s) then Err("invalid state")
    else if !s.Pending() then Err("completion requires a pending key change")
    else Ok(TreeHash(TerminalTree(ID_ACTION_COMPLETE, s, manifest)))
  }

  function CancelMessage(s: State, manifest: Bytes32): Result<Bytes32> {
    if !Valid(s) then Err("invalid state")
    else if !s.Pending() then Err("cancellation requires a pending key change")
    else Ok(TreeHash(TerminalTree(ID_ACTION_CANCEL, s, manifest)))
  }

  /** The message of a terminal action names the action, the change and the manifest, or there is a collision. */
  lemma TerminalMessageBinds(action: int, s: State, manifest: Bytes32, action': int, s': State, manifest': Bytes32)
    ensures TreeHash(TerminalTree(action, s, manifest)) == TreeHash(TerminalTree(action', s', manifest')) ==>
              || (&& action == action' && s.kind == s'.kind && s.slot == s'.slot && s.intent == s'.intent
                  && s.original == s'.original && s.replacement == s'.replacement && s.member == s'.member
                  && manifest == manifest')
              || Collision(TerminalTree(action, s, manifest), TerminalTree(action', s', manifest'))
  {
    hide TreeHash, ListOf, Collision, IntToAtom;
    if TreeHash(TerminalTree(action, s, manifest)) == TreeHash(TerminalTree(action', s', manifest')) {
      var f := [IntTree(action), IntTree(s.kind), IntTree(s.slot), Atom(s.intent), Atom(s.original),
                Atom(s.replacement), Atom(s.member), Atom(manifest)];
      var f' := [IntTree(action'), IntTree(s'.kind), IntTree(s'.slot), Atom(s'.intent), Atom(s'.original),
                 Atom(s'.replacement), Atom(s'.member), Atom(manifest')];
      FieldsBind(f, f');
      if f == f' {
        assert f[0] == f'[0] && f[1] == f'[1] && f[2] == f'[2] && f[3] == f'[3];
        assert f[4] == f'[4] && f[5] == f'[5] && f[6] == f'[6] && f[7] == f'[7];
        IntTreeInjective(action, action');
        IntTreeInjective(s.kind, s'.kind);
        IntTreeInjective(s.slot, s'.slot);
      }
    }
  }

  /** No announcement can serve both as a veto and as a completion, short of a collision. */
  lemma VetoIsNotCompletion(s: State, manifest: Bytes32, s': State, manifest': Bytes32)
    requires CancelMessage(s, manifest).Ok? && CompletionMessage(s', manifest').Ok?
    ensures CancelMessage(s, manifest) == CompletionMessage(s', manifest') ==>
              Collision(TerminalTree(ID_ACTION_CANCEL, s, manifest), TerminalTree(ID_ACTION_COMPLETE, s', manifest'))
  {
    hide TreeHash, TerminalTree, Collision;
    TerminalMessageBinds(ID_ACTION_CANCEL, s, manifest, ID_ACTION_COMPLETE, s', manifest');
  }
}
