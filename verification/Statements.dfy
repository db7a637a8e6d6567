/**
 Hashes of canonical JSON: amendment statements and release artifacts.
 */
module Statements {
  import opened Hashing
  import opened Results
  import opened JsonText
  import opened Json
  import opened JsonProofs
  import opened Spelling

  /** SHA-256 of the canonical text; the source writes it in hexadecimal behind `0x`. */
  function StatementHash(v: Json): Bytes32 {
    Sha256(Print(v))
  }

  /** Clean statements with one hash are the same up to the order of keys, or their texts collide. */
  lemma StatementHashBinds(v: Json, w: Json)
    requires Proper(v) && CleanValue(v) && Proper(w) && CleanValue(w)
    ensures StatementHash(v) == StatementHash(w) <==> Norm(v) == Norm(w) || Clash(Print(v), Print(w))
  {
    hide Print, Norm, Proper, CleanValue;
    PrintIsInjective(v, w);
  }

  // ---------------------------------------------------------------- artifacts

  /** The keys that are added once the hash is known. */
  const ARTIFACT_HASH: Text := Ascii("artifactHash")
  const SIGNATURES: Text := Ascii("signatures")

  predicate Attached(key: Text) {
    key == ARTIFACT_HASH || key == SIGNATURES
  }

  /** The artifact without what is attached after hashing. */
  function Unsigned(ms: Members): Members {
    match ms
    case End => End
    case Member(k, v, rest) => if Attached(k) then Unsigned(rest) else Member(k, v, Unsigned(rest))
  }

  function ArtifactHash(ms: Members): Bytes32 {
    Sha256(Print(Obj(Unsigned(ms))))
  }

  /** Sets a key of a dictionary: in place, or at the end. */
  function Set(ms: Members, key: Text, value: Json): Members {
    match ms
    case End => Member(key, value, End)
    case Member(k, v, rest) => if k == key then Member(k, value, rest) else Member(k, v, Set(rest, key, value))
  }

  lemma {:induction false} SetSets(ms: Members, key: Text, value: Json)
    ensures forall k :: Lookup(Set(ms, key, value), k) == if k == key then Some(value) else Lookup(ms, k)
    ensures Keys(Set(ms, key, value)) == Keys(ms) + {key}
    ensures DistinctKeys(ms) ==> DistinctKeys(Set(ms, key, value))
  {
    if ms.Member? {
      SetSets(ms.rest, key, value);
    }
  }

  lemma {:induction false} UnsignedIgnores(ms: Members, key: Text, value: Json)
    requires Attached(key)
    ensures Unsigned(Set(ms, key, value)) == Unsigned(ms)
  {
    if ms.Member? {
      UnsignedIgnores(ms.rest, key, value);
    }
  }

  /** Recording the hash in the artifact and signing it leave the hash as it was. */
  lemma ArtifactHashSurvivesSigning(ms: Members, hash: Json, signatures: Json)
    ensures ArtifactHash(Set(Set(ms, ARTIFACT_HASH, hash), SIGNATURES, signatures)) == ArtifactHash(ms)
  {
    hide Print;
    UnsignedIgnores(ms, ARTIFACT_HASH, hash);
    UnsignedIgnores(Set(ms, ARTIFACT_HASH, hash), SIGNATURES, signatures);
  }

  lemma {:induction false} UnsignedKeeps(ms: Members)
    ensures forall k :: Lookup(Unsigned(ms), k) == if Attached(k) then None else Lookup(ms, k)
    ensures forall k :: k in Keys(Unsigned(ms)) <==> k in Keys(ms) && !Attached(k)
    ensures DistinctKeys(ms) ==> DistinctKeys(Unsigned(ms))
    ensures ProperMembers(ms) ==> ProperMembers(Unsigned(ms))
    ensures CleanMembers(ms) ==> CleanMembers(Unsigned(ms))
  {
    hide Clean, Attached;
    if ms.Member? {
      UnsignedKeeps(ms.rest);
    }
  }

  /** The entries agree at a key, up to the order of keys inside. */
  predicate SameEntry(a: Members, b: Members, key: Text) {
    match (Lookup(a, key), Lookup(b, key))
    case (Some(v), Some(w)) => Norm(v) == Norm(w)
    case (None, None) => true
    case _ => false
  }

  ghost predicate SameContent(a: Members, b: Members) {
    forall k :: !Attached(k) ==> SameEntry(a, b, k)
  }

  /** Entry by entry equality is equality of the ordered forms. */
  lemma SameEntriesSameNorm(a: Members, b: Members)
    requires DistinctKeys(a) && ProperMembers(a) && DistinctKeys(b) && ProperMembers(b)
    ensures (forall k :: SameEntry(a, b, k)) <==> Norm(Obj(a)) == Norm(Obj(b))
  {
    NormMembersKeeps(a);
    NormMembersKeeps(b);
    var na, nb := NormMembers(a), NormMembers(b);
    SortKeeps(na);
    SortKeeps(nb);
    if forall k :: SameEntry(a, b, k) {
      forall k
        ensures Lookup(Sort(na), k) == Lookup(Sort(nb), k)
      {
        assert SameEntry(a, b, k);
      }
      SortedIsUnique(Sort(na), Sort(nb));
    }
    if Sort(na) == Sort(nb) {
      forall k
        ensures SameEntry(a, b, k)
      {
        assert Lookup(na, k) == Lookup(nb, k);
      }
    }
  }

  /** Artifacts with one hash agree on every key but the two attached ones, or their texts collide; and conversely. */
  lemma ArtifactHashBinds(a: Members, b: Members)
    requires Proper(Obj(a)) && CleanValue(Obj(a)) && Proper(Obj(b)) && CleanValue(Obj(b))
    ensures ArtifactHash(a) == ArtifactHash(b) <==>
              SameContent(a, b) || Clash(Print(Obj(Unsigned(a))), Print(Obj(Unsigned(b))))
  {
    hide Print, Norm, CleanMembers, ProperMembers, DistinctKeys, Attached;
    UnsignedKeeps(a);
    UnsignedKeeps(b);
    StatementHashBinds(Obj(Unsigned(a)), Obj(Unsigned(b)));
    SameEntriesSameNorm(Unsigned(a), Unsigned(b));
    assert forall k :: SameEntry(Unsigned(a), Unsigned(b), k) <==> Attached(k) || SameEntry(a, b, k);
  }
}
