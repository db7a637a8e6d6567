/**
 The constitutional policies as monotone threshold trees over the three identity slots, the approvers a key
 change selects, and the signature check of the public artifact.
 */
module Quorum {
  import opened Hashing
  import opened Results
  import opened Sequences
  import opened HexText
  import opened AuthorityState

  datatype Policy = Vote(slot: int) | MofN(m: int, members: seq<Policy>)

  predicate Satisfied(p: Policy, who: set<int>)
    decreases p, 0
  {
    match p
    case Vote(slot) => slot in who
    case MofN(m, members) => CountSatisfied(members, who) >= m
  }

  function CountSatisfied(members: seq<Policy>, who: set<int>): nat
    decreases members, 1
  {
    if members == [] then 0
    else (if Satisfied(members[0], who) then 1 else 0) + CountSatisfied(members[1..], who)
  }

  /** `slot 0 AND (slot 1 OR slot 2)`. */
  function Operational(): Policy {
    MofN(2, [Vote(0), MofN(1, [Vote(1), Vote(2)])])
  }

  function OtherSlots(slot: int): seq<int> {
    if slot == 0 then [1, 2] else if slot == 1 then [0, 2] else [0, 1]
  }

  function LostRecovery(recovered: int): Policy {
    MofN(2, [Vote(OtherSlots(recovered)[0]), Vote(OtherSlots(recovered)[1])])
  }

  lemma CountTwo(p: Policy, q: Policy, who: set<int>)
    ensures CountSatisfied([p, q], who)
         == (if Satisfied(p, who) then 1 else 0) + (if Satisfied(q, who) then 1 else 0)
  {
    assert [p, q][1..] == [q] && [q][1..] == [];
    assert CountSatisfied([q], who) == (if Satisfied(q, who) then 1 else 0) + CountSatisfied([], who);
  }

  /** What the operational root demands of the set of identities that approve. */
  lemma OperationalMeaning(who: set<int>)
    ensures Satisfied(Operational(), who) <==> 0 in who && (1 in who || 2 in who)
  {
    CountTwo(Vote(1), Vote(2), who);
    CountTwo(Vote(0), MofN(1, [Vote(1), Vote(2)]), who);
  }

  /** Recovering a slot takes both other identities; its own approval adds nothing. */
  lemma LostRecoveryMeaning(recovered: int, who: set<int>)
    requires 0 <= recovered < 3
    ensures Satisfied(LostRecovery(recovered), who) <==> {0, 1, 2} - {recovered} <= who
  {
    CountTwo(Vote(OtherSlots(recovered)[0]), Vote(OtherSlots(recovered)[1]), who);
  }

  lemma {:induction false} MoreApproversNeverHurt(p: Policy, who: set<int>, more: set<int>)
    requires who <= more && Satisfied(p, who)
    ensures Satisfied(p, more)
    decreases p, 0
  {
    match p
    case Vote(_) =>
    case MofN(m, members) => CountNeverDrops(members, who, more);
  }

  lemma {:induction false} CountNeverDrops(members: seq<Policy>, who: set<int>, more: set<int>)
    requires who <= more
    ensures CountSatisfied(members, who) <= CountSatisfied(members, more)
    decreases members, 1
  {
    if members != [] {
      if Satisfied(members[0], who) {
        MoreApproversNeverHurt(members[0], who, more);
      }
      CountNeverDrops(members[1..], who, more);
    }
  }

  // ---------------------------------------------------------------- approvers of a key change

  function RootFor(kind: int, slot: int): Policy {
    if kind == PENDING_LOST then LostRecovery(slot) else Operational()
  }

  /** The two identities whose approval the driver packs. */
  function SelectedSlots(kind: int, slot: int, coadmin: Option<int>): Result<(int, int)> {
    if kind == PENDING_LOST then Ok((OtherSlots(slot)[0], OtherSlots(slot)[1]))
    else if slot == 0 then
      var chosen := if coadmin.None? then 1 else coadmin.value;
      if chosen == 1 || chosen == 2 then Ok((0, chosen)) else Err("owner rotation requires coadmin slot 1 or 2")
    else if coadmin.Some? && coadmin.value != slot then
      Err("coadmin rotation must be approved by that coadmin and owner")
    else Ok((0, slot))
  }

  /** What the authority puzzle accepts as the slots of the two records. */
  predicate ValidOperationalRecords(a: int, b: int) {
    0 <= a < 3 && 0 <= b < 3 && a == 0 && (b == 1 || b == 2)
  }

  predicate ValidPrepareRecords(kind: int, a: int, b: int, slot: int) {
    if kind == PENDING_LOST then
      0 <= a < 3 && 0 <= b < 3 && b > a && a != slot && b != slot && a + b == 3 - slot
    else ValidOperationalRecords(a, b) && (a == slot || b == slot)
  }

  /** Whatever the driver selects, the puzzle accepts, and the records satisfy the root the puzzle demands. */
  lemma SelectionIsAccepted(kind: int, slot: int, coadmin: Option<int>)
    requires 0 <= slot < 3
    ensures SelectedSlots(kind, slot, coadmin).Ok? ==>
              var (a, b) := SelectedSlots(kind, slot, coadmin).value;
              ValidPrepareRecords(kind, a, b, slot) && Satisfied(RootFor(kind, slot), {a, b})
  {
    if SelectedSlots(kind, slot, coadmin).Ok? {
      var (a, b) := SelectedSlots(kind, slot, coadmin).value;
      OperationalMeaning({a, b});
      LostRecoveryMeaning(slot, {a, b});
    }
  }

  /** A recovery takes the two others, a coadmin's own change that coadmin with the owner, and the owner's change the
      coadmin that is named, or slot 1 if none is. */
  lemma SelectionMeans(kind: int, slot: int, coadmin: Option<int>)
    requires 0 <= slot < 3
    ensures kind == PENDING_LOST ==>
              && SelectedSlots(kind, slot, coadmin).Ok?
              && var (a, b) := SelectedSlots(kind, slot, coadmin).value; {a, b} == {0, 1, 2} - {slot}
    ensures kind != PENDING_LOST && slot == 0 ==>
              && SelectedSlots(kind, slot, None) == Ok((0, 1))
              && forall c :: SelectedSlots(kind, slot, Some(c)).Ok? <==> c in {1, 2}
    ensures kind != PENDING_LOST && slot == 0 ==>
              forall c :: c in {1, 2} ==> SelectedSlots(kind, slot, Some(c)) == Ok((0, c))
    ensures kind != PENDING_LOST && slot != 0 ==>
              && SelectedSlots(kind, slot, None) == SelectedSlots(kind, slot, Some(slot)) == Ok((0, slot))
              && forall c :: c != slot ==> SelectedSlots(kind, slot, Some(c)).Err?
  {
  }

  /** Every pair of records the puzzle accepts satisfies the root, and is one the driver can select. */
  lemma AcceptedRecordsAreSelectable(kind: int, slot: int, a: int, b: int)
    requires 0 <= slot < 3
    ensures ValidPrepareRecords(kind, a, b, slot) ==>
              && SelectedSlots(kind, slot, if kind == PENDING_LOST then None else Some(b)) == Ok((a, b))
              && Satisfied(RootFor(kind, slot), {a, b})
  {
    OperationalMeaning({a, b});
    LostRecoveryMeaning(slot, {a, b});
  }

  /** Collects the two branch proofs of a lost-key recovery, each with the custody it is solved for. */
  method CollectLostProofs(recovered: int, custodies: seq<Bytes32>) returns (proven: map<int, Bytes32>)
    requires 0 <= recovered < 3 && |custodies| == 3
    ensures proven.Keys == {0, 1, 2} - {recovered}
    ensures forall slot :: slot in proven ==> proven[slot] == custodies[slot]
    ensures Satisfied(LostRecovery(recovered), proven.Keys)
  {
    proven := map[];
    var selected := OtherSlots(recovered);
    for i := 0 to |selected|
      invariant proven.Keys == set j | 0 <= j < i :: selected[j]
      invariant forall slot :: slot in proven ==> 0 <= slot < 3 && proven[slot] == custodies[slot]
    {
      proven := proven[selected[i] := custodies[selected[i]]];
    }
    assert proven.Keys == {selected[0], selected[1]};
    LostRecoveryMeaning(recovered, proven.Keys);
  }

  // ---------------------------------------------------------------- artifact signatures

  /** An entry of an artifact's signature list: a slot, a key and a signature, as texts. */
  datatype Signature = Signature(adminIndex: int, pubkey: string, signature: string)

  function Slots(entries: seq<Signature>): seq<int> {
    seq(|entries|, i requires 0 <= i < |entries| => entries[i].adminIndex)
  }

  /** The slot's own key, in any case, and a signature of 65 bytes that the verifier accepts for it. */
  predicate Signed(e: Signature, keys: seq<string>, verifier: (int, Bytes, Bytes) -> bool)
    requires |keys| == 3 && 0 <= e.adminIndex < 3
  {
    && HexValue(e.pubkey, 33) == Some(keys[e.adminIndex])
    && ParseBytes(e.pubkey, 33).Some? && ParseBytes(e.signature, 65).Some?
    && verifier(e.adminIndex, ParseBytes(e.pubkey, 33).value, ParseBytes(e.signature, 65).value)
  }

  predicate GoodEntry(e: Signature, keys: seq<string>, verifier: (int, Bytes, Bytes) -> bool)
    requires |keys| == 3
  {
    0 <= e.adminIndex < 3 && Signed(e, keys, verifier)
  }

  /** Accepts exactly two or three good signatures of distinct slots that meet the owner-plus-one policy. */
  method VerifySignatures(entries: seq<Signature>, keys: seq<string>, verifier: (int, Bytes, Bytes) -> bool)
    returns (accepted: bool)
    requires |keys| == 3
    ensures accepted <==>
      && 2 <= |entries| <= 3
      && Distinct(Slots(entries))
      && (forall e :: e in entries ==> GoodEntry(e, keys, verifier))
      && Satisfied(Operational(), set slot | slot in Slots(entries))
    ensures accepted ==> forall e, key ::
      e in entries && 0 <= e.adminIndex < 3 && keys[e.adminIndex] == Hex(key) ==> AskedAbout(e, key, verifier)
  {
    hide Signed, Satisfied, Distinct, Hex;
    if !(2 <= |entries| <= 3) {
      return false;
    }
    var seen: set<int> := {};
    var slots := Slots(entries);
    NothingRepeats(slots);
    for i := 0 to |entries|
      invariant seen == set slot | slot in slots[..i]
      invariant Distinct(slots[..i])
      invariant forall j :: 0 <= j < i ==> GoodEntry(entries[j], keys, verifier)
    {
      var entry := entries[i];
      assert entry in entries && slots[..i + 1] == slots[..i] + [entry.adminIndex];
      NextSlot(slots, i);
      if !(0 <= entry.adminIndex < 3) || entry.adminIndex in seen {
        return false;
      }
      seen := seen + {entry.adminIndex};
      if !Signed(entry, keys, verifier) {
        return false;
      }
    }
    assert slots[..|slots|] == slots;
    OperationalMeaning(seen);
    MeetsCoadmins(seen);
    forall e, key | e in entries && 0 <= e.adminIndex < 3 && keys[e.adminIndex] == Hex(key)
      ensures AskedAbout(e, key, verifier)
    {
      SignedByTheSlot(e, keys, verifier, key);
    }
    accepted := 0 in seen && seen * {1, 2} != {};
  }

  lemma NothingRepeats(slots: seq<int>)
    ensures slots[..0] == [] && Distinct(slots[..0])
  {
  }

  /** The slots read so far stay distinct exactly when the next is new, and a repeated one is never mended. */
  lemma NextSlot(slots: seq<int>, i: nat)
    requires i < |slots| && Distinct(slots[..i])
    ensures Distinct(slots[..i + 1]) <==> slots[i] !in slots[..i]
    ensures Distinct(slots) ==> Distinct(slots[..i + 1])
  {
    assert slots[..i + 1] == slots[..i] + [slots[i]];
    DistinctSplits(slots[..i], [slots[i]]);
    assert slots == slots[..i + 1] + slots[i + 1..];
    DistinctSplits(slots[..i + 1], slots[i + 1..]);
  }

  lemma MeetsCoadmins(seen: set<int>)
    ensures seen * {1, 2} != {} <==> 1 in seen || 2 in seen
  {
    assert 1 in seen ==> 1 in seen * {1, 2};
    assert 2 in seen ==> 2 in seen * {1, 2};
  }

  /** The verifier was asked about the very key that the roster has for the slot. */
  predicate AskedAbout(e: Signature, key: Bytes, verifier: (int, Bytes, Bytes) -> bool) {
    ParseBytes(e.signature, 65).Some? && verifier(e.adminIndex, key, ParseBytes(e.signature, 65).value)
  }

  lemma SignedByTheSlot(e: Signature, keys: seq<string>, verifier: (int, Bytes, Bytes) -> bool, key: Bytes)
    requires |keys| == 3 && GoodEntry(e, keys, verifier) && keys[e.adminIndex] == Hex(key)
    ensures AskedAbout(e, key, verifier)
  {
    hide HexValue, FromHex;
    DigitsRoundTrip(key);
    assert Hex(key)[2..] == Digits(key);
  }

  /** An entry that writes a key and a signature of the right sizes counts exactly when the key is the slot's, neither
      is zero, and the verifier accepts. */
  lemma SignedIff(e: Signature, keys: seq<string>, verifier: (int, Bytes, Bytes) -> bool,
                  key: Bytes, signature: Bytes)
    requires |keys| == 3 && e.pubkey == Hex(key) && e.signature == Hex(signature) && |key| == 33 && |signature| == 65
    ensures GoodEntry(e, keys, verifier) <==>
              && 0 <= e.adminIndex < 3 && keys[e.adminIndex] == Hex(key)
              && key != Zeros(33) && signature != Zeros(65) && verifier(e.adminIndex, key, signature)
  {
    hide HexValue, FromHex, Hex;
    HexTextRoundTrip(key);
    HexTextRoundTrip(signature);
    HexOfText(key);
  }

  lemma HexOfText(key: Bytes)
    requires key != []
    ensures HexValue(Hex(key), |key|) == if key == Zeros(|key|) then None else Some(Hex(key))
  {
    hide FromHex, ReadsAsInt, LowerChar, HexDigit;
    HexTextRoundTrip(key);
    DigitsRoundTrip(key);
    LowerOfPrefix();
    assert Lower(Hex(key)) == Hex(key);
  }
}
