/**
 The admission check on identity proof queries: an age record and a sanctions record, nothing else.
 */
module Eligibility {
  import opened Hashing

  const INPUTS_LENGTH := 41
  const AGE_KIND := 1
  const SANCTIONS_KIND := 9

  /** Kind, two bytes of length, body: the minimum age 18 and no maximum. */
  const AGE_RECORD: Bytes := [1, 0, 2, 18, 0]

  /** The sanctions root and the flag of the non-strict check. */
  function SanctionsRecord(root: Bytes): Bytes {
    [9, 0, 33] + root + [0]
  }

  /** The query is one record of each kind, in either order. */
  ghost predicate AgePlusSanctions(inputs: Bytes) {
    exists root :: |root| == 32 && IsQuery(inputs, root)
  }

  predicate IsQuery(inputs: Bytes, root: Bytes) {
    inputs == AGE_RECORD + SanctionsRecord(root) || inputs == SanctionsRecord(root) + AGE_RECORD
  }

  /** The records of the kinds seen so far are exactly what has been read. */
  ghost predicate ReadSoFar(inputs: Bytes, offset: int, seen: set<int>)
    requires 0 <= offset <= |inputs|
  {
    || (seen == {} && offset == 0)
    || (seen == {AGE_KIND} && inputs[..offset] == AGE_RECORD)
    || (seen == {SANCTIONS_KIND} && IsSanctions(inputs[..offset]))
    || (seen == {AGE_KIND, SANCTIONS_KIND} && AgePlusSanctions(inputs[..offset]))
  }

  predicate IsSanctions(record: Bytes) {
    |record| == 36 && record[..3] == [9, 0, 33] && record[35] == 0
  }

  lemma SanctionsRecordIs(record: Bytes)
    requires IsSanctions(record)
    ensures |record[3..35]| == 32 && record == SanctionsRecord(record[3..35])
  {
  }

  lemma QueryIs(a: Bytes, b: Bytes)
    requires (a == AGE_RECORD && IsSanctions(b)) || (IsSanctions(a) && b == AGE_RECORD)
    ensures AgePlusSanctions(a + b) && |a + b| == INPUTS_LENGTH
  {
    var record := if a == AGE_RECORD then b else a;
    SanctionsRecordIs(record);
    assert IsQuery(a + b, record[3..35]);
  }

  /** A query of the two records has a record wherever one is read, and a different kind each time. */
  lemma QueryParts(inputs: Bytes)
    requires AgePlusSanctions(inputs)
    ensures |inputs| == INPUTS_LENGTH
    ensures (inputs[..5] == AGE_RECORD && IsSanctions(inputs[5..]))
        || (IsSanctions(inputs[..36]) && inputs[36..] == AGE_RECORD)
  {
    var root :| |root| == 32 && IsQuery(inputs, root);
    var record := SanctionsRecord(root);
    assert IsSanctions(record);
    if inputs == AGE_RECORD + record {
      assert inputs[..5] == AGE_RECORD && inputs[5..] == record;
    } else {
      assert inputs[..36] == record && inputs[36..] == AGE_RECORD;
    }
  }

  /** The record that starts at an offset, if the kind is one of the two and the body is as it must be. */
  predicate GoodRecord(kind: int, body: Bytes) {
    (kind == AGE_KIND && body == [18, 0]) || (kind == SANCTIONS_KIND && |body| == 33 && body[32] == 0)
  }

  function LengthAt(inputs: Bytes, offset: nat): nat
    requires offset + 3 <= |inputs|
  {
    (256 as int) * inputs[offset + 1] + inputs[offset + 2]
  }

  lemma RecordIs(inputs: Bytes, offset: nat)
    requires offset + 3 <= |inputs| && offset + 3 + LengthAt(inputs, offset) <= |inputs|
    ensures var end := offset + 3 + LengthAt(inputs, offset); var record := inputs[offset..end];
      && (GoodRecord(inputs[offset], inputs[offset + 3..end]) <==> record == AGE_RECORD || IsSanctions(record))
      && (record == AGE_RECORD ==> inputs[offset] == AGE_KIND)
      && (IsSanctions(record) ==> inputs[offset] == SANCTIONS_KIND)
  {
    var end := offset + 3 + LengthAt(inputs, offset);
    var record, body := inputs[offset..end], inputs[offset + 3..end];
    assert record == [inputs[offset], inputs[offset + 1], inputs[offset + 2]] + body;
    assert record[..3] == [inputs[offset], inputs[offset + 1], inputs[offset + 2]];
    assert body == record[3..] && AGE_RECORD[3..] == [18, 0] && AGE_RECORD[..3] == [1, 0, 2];
    assert |record| == 36 ==> body[32] == record[35];
    assert record[..3] == [9, 0, 33] ==> record[..3][0] == 9 && record[..3][1] == 0 && record[..3][2] == 33;
    assert record == AGE_RECORD ==> record[..3][0] == 1 && record[..3][1] == 0 && record[..3][2] == 2;
  }

  /** A good record of a kind not seen before extends what has been read. */
  lemma OneMoreRecord(inputs: Bytes, offset: nat, seen: set<int>)
    requires offset + 3 <= |inputs| && offset + 3 + LengthAt(inputs, offset) <= |inputs|
    requires ReadSoFar(inputs, offset, seen) && inputs[offset] !in seen
    requires GoodRecord(inputs[offset], inputs[offset + 3..offset + 3 + LengthAt(inputs, offset)])
    ensures ReadSoFar(inputs, offset + 3 + LengthAt(inputs, offset), seen + {inputs[offset] as int})
  {
    hide IsSanctions, AGE_RECORD, AgePlusSanctions, GoodRecord, LengthAt;
    RecordIs(inputs, offset);
    var end := offset + 3 + LengthAt(inputs, offset);
    var before, record := inputs[..offset], inputs[offset..end];
    assert inputs[..end] == before + record;
    if seen == {} {
      assert before == [] && inputs[..end] == record;
    } else if seen != {AGE_KIND, SANCTIONS_KIND} {
      QueryIs(before, record);
    }
  }

  /** While a query of the two records is read, the next record is there, good, and of the other kind. */
  lemma NextRecordIsGood(inputs: Bytes, offset: nat, seen: set<int>)
    requires AgePlusSanctions(inputs) && offset < |inputs| && ReadSoFar(inputs, offset, seen)
    ensures offset + 3 <= |inputs| && offset + 3 + LengthAt(inputs, offset) <= |inputs|
    ensures inputs[offset] !in seen
    ensures GoodRecord(inputs[offset], inputs[offset + 3..offset + 3 + LengthAt(inputs, offset)])
  {
    hide AgePlusSanctions, IsQuery;
    QueryParts(inputs);
    if seen == {} {
      RecordAtStart(inputs);
    } else if seen == {AGE_KIND} {
      assert inputs[0] == inputs[..offset][0];
      assert offset == 5 && IsSanctions(inputs[5..]);
      var rest := inputs[5..];
      assert rest[..3][0] == inputs[5] && rest[..3][1] == inputs[6] && rest[..3][2] == inputs[7];
      assert rest[35] == inputs[40];
    } else if seen == {SANCTIONS_KIND} {
      assert inputs[0] == inputs[..offset][..3][0];
      assert offset == 36 && inputs[36..] == AGE_RECORD;
      assert inputs[36] == inputs[36..][0] && inputs[37] == inputs[36..][1] && inputs[38] == inputs[36..][2];
    } else {
      QueryParts(inputs[..offset]);
    }
  }

  lemma RecordAtStart(inputs: Bytes)
    requires |inputs| == INPUTS_LENGTH && (inputs[..5] == AGE_RECORD || IsSanctions(inputs[..36]))
    ensures 3 + LengthAt(inputs, 0) <= |inputs|
    ensures GoodRecord(inputs[0], inputs[3..3 + LengthAt(inputs, 0)])
  {
    if inputs[..5] == AGE_RECORD {
      assert inputs[0] == AGE_RECORD[0] && inputs[1] == AGE_RECORD[1] && inputs[2] == AGE_RECORD[2];
      assert inputs[3..5] == AGE_RECORD[3..5];
    } else {
      assert inputs[..36][..3] == inputs[..3];
      assert inputs[0] == inputs[..3][0] && inputs[1] == inputs[..3][1] && inputs[2] == inputs[..3][2];
    }
  }

  /** Accepts exactly an age record and a sanctions record in either order, without reading past the end. */
  method RequireEligibilityInputs(inputs: Bytes) returns (ok: bool)
    ensures ok <==> AgePlusSanctions(inputs)
  {
    hide IsQuery, IsSanctions, AGE_RECORD, AgePlusSanctions, GoodRecord, ReadSoFar;
    if |inputs| != INPUTS_LENGTH {
      if AgePlusSanctions(inputs) {
        QueryParts(inputs);
      }
      return false;
    }
    var offset := 0;
    var seen: set<int> := {};
    assert ReadSoFar(inputs, 0, {}) by { NothingRead(inputs); }
    while offset < |inputs|
      invariant 0 <= offset <= |inputs|
      invariant ReadSoFar(inputs, offset, seen)
      decreases |inputs| - offset
    {
      if AgePlusSanctions(inputs) {
        NextRecordIsGood(inputs, offset, seen);
      }
      if |inputs| - offset < 3 {
        return false;
      }
      var kind, length := inputs[offset], LengthAt(inputs, offset);
      offset := offset + 3;
      if |inputs| - offset < length || kind in seen {
        return false;
      }
      var body := inputs[offset..offset + length];
      if !GoodRecord(kind, body) {
        return false;
      }
      OneMoreRecord(inputs, offset - 3, seen);
      seen := seen + {kind};
      offset := offset + length;
    }
    AllRead(inputs, seen);
    return seen == {AGE_KIND, SANCTIONS_KIND};
  }

  lemma NothingRead(inputs: Bytes)
    ensures ReadSoFar(inputs, 0, {})
  {
  }

  lemma AllRead(inputs: Bytes, seen: set<int>)
    requires |inputs| == INPUTS_LENGTH && ReadSoFar(inputs, |inputs|, seen)
    ensures seen == {AGE_KIND, SANCTIONS_KIND} <==> AgePlusSanctions(inputs)
  {
    hide AgePlusSanctions;
    assert inputs[..|inputs|] == inputs;
  }
}
