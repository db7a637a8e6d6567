/**
 The EIP-712 member leaf of an administrator record: hashed from bytes alone, and as a curried puzzle.
 */
module Eip712 {
  import opened Hashing
  import opened Results
  import opened Clvm
  import opened Currying

  /** The uncurried member puzzle; its value is left open. */
  const MEMBER_MOD: Tree

  predicate MemberArguments(pubkey: Bytes, prefix: Bytes, typeHash: Bytes) {
    |pubkey| == 33 && |prefix| == 34 && prefix[..2] == [0x19, 0x01] && |typeHash| == 32
  }

  /** The leaf hash as the service computes it, from raw bytes. */
  function LeafHash(pubkey: Bytes, prefix: Bytes, typeHash: Bytes): Result<Bytes32> {
    if !MemberArguments(pubkey, prefix, typeHash) then Err("malformed member argument")
    else Ok(CurryHash(TreeHash(MEMBER_MOD), [AtomTreeHash(prefix), AtomTreeHash(typeHash), AtomTreeHash(pubkey)]))
  }

  /** The member puzzle that is revealed on chain. */
  function MemberPuzzle(pubkey: Bytes, prefix: Bytes, typeHash: Bytes): Result<Tree> {
    if !MemberArguments(pubkey, prefix, typeHash) then Err("malformed member argument")
    else Ok(Curry(MEMBER_MOD, [Atom(prefix), Atom(typeHash), Atom(pubkey)]))
  }

  /** The two constructions accept the same arguments and meet in the same hash. */
  lemma LeafHashIsPuzzleHash(pubkey: Bytes, prefix: Bytes, typeHash: Bytes)
    ensures LeafHash(pubkey, prefix, typeHash).Ok? == MemberPuzzle(pubkey, prefix, typeHash).Ok?
    ensures LeafHash(pubkey, prefix, typeHash).Ok? <==>
              |pubkey| == 33 && |prefix| == 34 && prefix[0] == 0x19 && prefix[1] == 0x01 && |typeHash| == 32
    ensures MemberPuzzle(pubkey, prefix, typeHash).Ok? ==>
              LeafHash(pubkey, prefix, typeHash).value == TreeHash(MemberPuzzle(pubkey, prefix, typeHash).value)
  {
    hide Sha256, CurriedValues, CurriedValuesHash, Curry, CurryHash;
    var args := [Atom(prefix), Atom(typeHash), Atom(pubkey)];
    CurryHashIsTreeHash(MEMBER_MOD, args);
    assert Hashes(args) == [AtomTreeHash(prefix), AtomTreeHash(typeHash), AtomTreeHash(pubkey)];
  }

  /** One leaf hash names one key under one domain and type, or there is a collision. */
  lemma LeafHashBinds(pubkey: Bytes, prefix: Bytes, typeHash: Bytes, pubkey': Bytes, prefix': Bytes, typeHash': Bytes)
    requires LeafHash(pubkey, prefix, typeHash).Ok? && LeafHash(pubkey', prefix', typeHash').Ok?
    requires LeafHash(pubkey, prefix, typeHash) == LeafHash(pubkey', prefix', typeHash')
    ensures
      || (pubkey == pubkey' && prefix == prefix' && typeHash == typeHash')
      || Collision(MemberPuzzle(pubkey, prefix, typeHash).value,
                   MemberPuzzle(pubkey', prefix', typeHash').value)
  {
    LeafHashIsPuzzleHash(pubkey, prefix, typeHash);
    LeafHashIsPuzzleHash(pubkey', prefix', typeHash');
    var args, args' := [Atom(prefix), Atom(typeHash), Atom(pubkey)], [Atom(prefix'), Atom(typeHash'), Atom(pubkey')];
    TreeHashBinds(Curry(MEMBER_MOD, args), Curry(MEMBER_MOD, args'));
    if Curry(MEMBER_MOD, args) == Curry(MEMBER_MOD, args') {
      UncurryIsInverse(Curry(MEMBER_MOD, args), MEMBER_MOD, args);
      UncurryIsInverse(Curry(MEMBER_MOD, args'), MEMBER_MOD, args');
      assert args[0] == args'[0] && args[1] == args'[1] && args[2] == args'[2];
    }
  }
}
