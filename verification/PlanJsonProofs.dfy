/**
 What the text of a plan's payload binds: every field of it.
 */
module PlanJsonProofs {
  import opened Results
  import opened Sequences
  import opened Json
  import opened JsonFields
  import opened PlanJson

  // ---------------------------------------------------------------- names differ

  lemma MarksJoin(a: seq<string>, b: seq<string>)
    requires MarksIncrease(a) && MarksIncrease(b) && a != [] && b != [] && Mark(a[|a| - 1]) < Mark(b[0])
    ensures MarksIncrease(a + b) && Mark((a + b)[|a + b| - 1]) == Mark(b[|b| - 1])
  {
    hide Mark;
    var all := a + b;
    forall i | 0 <= i < |all| - 1
      ensures Mark(all[i]) < Mark(all[i + 1])
    {
      if i >= |a| {
        assert Mark(b[i - |a|]) < Mark(b[i - |a| + 1]);
      }
    }
  }

  lemma SeedKeysDiffer()
    ensures Distinct(SEED_KEYS)
  {
    assert |SEED_KEYS[0]| == 6 && SEED_KEYS[0][0] == 'a' && SEED_KEYS[0][1] == 'm';
    assert |SEED_KEYS[1]| == 6 && SEED_KEYS[1][0] == 'c' && SEED_KEYS[1][1] == 'o';
    assert |SEED_KEYS[2]| == 7 && SEED_KEYS[2][0] == 'p' && SEED_KEYS[2][1] == 'u';
    assert |SEED_KEYS[3]| == 7 && SEED_KEYS[3][0] == 'v' && SEED_KEYS[3][1] == 'e';
    assert |SEED_KEYS[4]| == 10 && SEED_KEYS[4][0] == 'p' && SEED_KEYS[4][1] == 'u';
    assert |SEED_KEYS[5]| == 11 && SEED_KEYS[5][0] == 'c' && SEED_KEYS[5][1] == 'i';
    MarksTellApart(SEED_KEYS);
  }

  lemma FundingKeysDiffer()
    ensures Distinct(FUNDING_KEYS)
  {
    assert |FUNDING_KEYS[0]| == 3 && FUNDING_KEYS[0][0] == 'd' && FUNDING_KEYS[0][1] == 'i';
    assert |FUNDING_KEYS[1]| == 3 && FUNDING_KEYS[1][0] == 's' && FUNDING_KEYS[1][1] == 'g';
    assert |FUNDING_KEYS[2]| == 4 && FUNDING_KEYS[2][0] == 'p' && FUNDING_KEYS[2][1] == 'o';
    assert |FUNDING_KEYS[3]| == 8 && FUNDING_KEYS[3][0] == 's' && FUNDING_KEYS[3][1] == 't';
    assert |FUNDING_KEYS[4]| == 10 && FUNDING_KEYS[4][0] == 'g' && FUNDING_KEYS[4][1] == 'o';
    assert |FUNDING_KEYS[5]| == 12 && FUNDING_KEYS[5][0] == 'b' && FUNDING_KEYS[5][1] == 'r';
    assert |FUNDING_KEYS[6]| == 15 && FUNDING_KEYS[6][0] == 'a' && FUNDING_KEYS[6][1] == 'd';
    assert |FUNDING_KEYS[7]| == 15 && FUNDING_KEYS[7][0] == 'p' && FUNDING_KEYS[7][1] == 'r';
    assert |FUNDING_KEYS[8]| == 22 && FUNDING_KEYS[8][0] == 'v' && FUNDING_KEYS[8][1] == 'a';
    MarksTellApart(FUNDING_KEYS);
  }

  lemma ParametersKeysDiffer()
    ensures Distinct(PARAMETERS_KEYS)
  {
    assert |PARAMETERS_KEYS[0]| == 9 && PARAMETERS_KEYS[0][0] == 'q' && PARAMETERS_KEYS[0][1] == 'u';
    assert |PARAMETERS_KEYS[1]| == 14 && PARAMETERS_KEYS[1][0] == 'e' && PARAMETERS_KEYS[1][1] == 'x';
    assert |PARAMETERS_KEYS[2]| == 14 && PARAMETERS_KEYS[2][0] == 'p' && PARAMETERS_KEYS[2][1] == 'r';
    assert |PARAMETERS_KEYS[3]| == 14 && PARAMETERS_KEYS[3][0] == 's' && PARAMETERS_KEYS[3][1] == 'g';
    assert |PARAMETERS_KEYS[4]| == 16 && PARAMETERS_KEYS[4][0] == 'm' && PARAMETERS_KEYS[4][1] == 'i';
    assert |PARAMETERS_KEYS[5]| == 16 && PARAMETERS_KEYS[5][0] == 's' && PARAMETERS_KEYS[5][1] == 'g';
    assert |PARAMETERS_KEYS[6]| == 18 && PARAMETERS_KEYS[6][0] == 'n' && PARAMETERS_KEYS[6][1] == 'a';
    assert |PARAMETERS_KEYS[7]| == 18 && PARAMETERS_KEYS[7][0] == 'r' && PARAMETERS_KEYS[7][1] == 'e';
    assert |PARAMETERS_KEYS[8]| == 19 && PARAMETERS_KEYS[8][0] == 'o' && PARAMETERS_KEYS[8][1] == 'r';
    assert |PARAMETERS_KEYS[9]| == 19 && PARAMETERS_KEYS[9][0] == 'v' && PARAMETERS_KEYS[9][1] == 'o';
    MarksTellApart(PARAMETERS_KEYS);
  }

  lemma StateKeysDiffer()
    ensures Distinct(STATE_KEYS)
  {
    assert |STATE_KEYS[0]| == 11 && STATE_KEYS[0][0] == 'p' && STATE_KEYS[0][1] == 'o';
    assert |STATE_KEYS[1]| == 12 && STATE_KEYS[1][0] == 'v' && STATE_KEYS[1][1] == 'a';
    assert |STATE_KEYS[2]| == 13 && STATE_KEYS[2][0] == 's' && STATE_KEYS[2][1] == 't';
    assert |STATE_KEYS[3]| == 15 && STATE_KEYS[3][0] == 's' && STATE_KEYS[3][1] == 't';
    assert |STATE_KEYS[4]| == 18 && STATE_KEYS[4][0] == 'p' && STATE_KEYS[4][1] == 'o';
    assert |STATE_KEYS[5]| == 19 && STATE_KEYS[5][0] == 's' && STATE_KEYS[5][1] == 't';
    assert |STATE_KEYS[6]| == 21 && STATE_KEYS[6][0] == 'a' && STATE_KEYS[6][1] == 'd';
    assert |STATE_KEYS[7]| == 21 && STATE_KEYS[7][0] == 'p' && STATE_KEYS[7][1] == 'r';
    assert |STATE_KEYS[8]| == 23 && STATE_KEYS[8][0] == 'p' && STATE_KEYS[8][1] == 'r';
    MarksTellApart(STATE_KEYS);
  }

  lemma FirstAdminKeysIncrease()
    ensures MarksIncrease(FIRST_ADMIN_KEYS) && Mark(FIRST_ADMIN_KEYS[0]) == 1_000_000 * 6 + 28783
    ensures Mark(FIRST_ADMIN_KEYS[7]) == 1_000_000 * 14 + 25455
  {
    assert |FIRST_ADMIN_KEYS[0]| == 6 && FIRST_ADMIN_KEYS[0][0] == 'p' && FIRST_ADMIN_KEYS[0][1] == 'o';
    assert |FIRST_ADMIN_KEYS[1]| == 7 && FIRST_ADMIN_KEYS[1][0] == 'p' && FIRST_ADMIN_KEYS[1][1] == 'e';
    assert |FIRST_ADMIN_KEYS[2]| == 7 && FIRST_ADMIN_KEYS[2][0] == 'v' && FIRST_ADMIN_KEYS[2][1] == 'e';
    assert |FIRST_ADMIN_KEYS[3]| == 9 && FIRST_ADMIN_KEYS[3][0] == 't' && FIRST_ADMIN_KEYS[3][1] == 'h';
    assert |FIRST_ADMIN_KEYS[4]| == 10 && FIRST_ADMIN_KEYS[4][0] == 'a' && FIRST_ADMIN_KEYS[4][1] == 'd';
    assert |FIRST_ADMIN_KEYS[5]| == 10 && FIRST_ADMIN_KEYS[5][0] == 'o' && FIRST_ADMIN_KEYS[5][1] == 'w';
    assert |FIRST_ADMIN_KEYS[6]| == 13 && FIRST_ADMIN_KEYS[6][0] == 'f' && FIRST_ADMIN_KEYS[6][1] == 'u';
    assert |FIRST_ADMIN_KEYS[7]| == 14 && FIRST_ADMIN_KEYS[7][0] == 'c' && FIRST_ADMIN_KEYS[7][1] == 'o';
  }

  lemma SecondAdminKeysIncrease()
    ensures MarksIncrease(SECOND_ADMIN_KEYS) && Mark(SECOND_ADMIN_KEYS[0]) == 1_000_000 * 14 + 26980
    ensures Mark(SECOND_ADMIN_KEYS[7]) == 1_000_000 * 26 + 27759
  {
    assert |SECOND_ADMIN_KEYS[0]| == 14 && SECOND_ADMIN_KEYS[0][0] == 'i' && SECOND_ADMIN_KEYS[0][1] == 'd';
    assert |SECOND_ADMIN_KEYS[1]| == 16 && SECOND_ADMIN_KEYS[1][0] == 'c' && SECOND_ADMIN_KEYS[1][1] == 'o';
    assert |SECOND_ADMIN_KEYS[2]| == 17 && SECOND_ADMIN_KEYS[2][0] == 'c' && SECOND_ADMIN_KEYS[2][1] == 'o';
    assert |SECOND_ADMIN_KEYS[3]| == 18 && SECOND_ADMIN_KEYS[3][0] == 's' && SECOND_ADMIN_KEYS[3][1] == 'o';
    assert |SECOND_ADMIN_KEYS[4]| == 19 && SECOND_ADMIN_KEYS[4][0] == 'l' && SECOND_ADMIN_KEYS[4][1] == 'o';
    assert |SECOND_ADMIN_KEYS[5]| == 19 && SECOND_ADMIN_KEYS[5][0] == 'r' && SECOND_ADMIN_KEYS[5][1] == 'o';
    assert |SECOND_ADMIN_KEYS[6]| == 23 && SECOND_ADMIN_KEYS[6][0] == 'o' && SECOND_ADMIN_KEYS[6][1] == 'p';
    assert |SECOND_ADMIN_KEYS[7]| == 26 && SECOND_ADMIN_KEYS[7][0] == 'l' && SECOND_ADMIN_KEYS[7][1] == 'o';
  }

  lemma AdminKeysDiffer()
    ensures Distinct(AdminKeys())
  {
    hide Mark, MarksIncrease;
    FirstAdminKeysIncrease();
    SecondAdminKeysIncrease();
    MarksJoin(FIRST_ADMIN_KEYS, SECOND_ADMIN_KEYS);
    MarksTellApart(AdminKeys());
  }

  lemma ValidatorsKeysDiffer()
    ensures Distinct(VALIDATORS_KEYS)
  {
    assert |VALIDATORS_KEYS[0]| == 7 && VALIDATORS_KEYS[0][0] == 'p' && VALIDATORS_KEYS[0][1] == 'u';
    assert |VALIDATORS_KEYS[1]| == 9 && VALIDATORS_KEYS[1][0] == 't' && VALIDATORS_KEYS[1][1] == 'h';
    MarksTellApart(VALIDATORS_KEYS);
  }

  lemma DestinationsKeysDiffer()
    ensures Distinct(DESTINATIONS_KEYS)
  {
    assert |DESTINATIONS_KEYS[0]| == 21 && DESTINATIONS_KEYS[0][0] == 'g' && DESTINATIONS_KEYS[0][1] == 'o';
    assert |DESTINATIONS_KEYS[1]| == 25 && DESTINATIONS_KEYS[1][0] == 't' && DESTINATIONS_KEYS[1][1] == 'r';
    assert |DESTINATIONS_KEYS[2]| == 26 && DESTINATIONS_KEYS[2][0] == 'p' && DESTINATIONS_KEYS[2][1] == 'r';
    assert |DESTINATIONS_KEYS[3]| == 27 && DESTINATIONS_KEYS[3][0] == 'g' && DESTINATIONS_KEYS[3][1] == 'o';
    assert |DESTINATIONS_KEYS[4]| == 32 && DESTINATIONS_KEYS[4][0] == 'c' && DESTINATIONS_KEYS[4][1] == 'o';
    MarksTellApart(DESTINATIONS_KEYS);
  }

  lemma AssetsKeysDiffer()
    ensures Distinct(ASSETS_KEYS)
  {
    assert |ASSETS_KEYS[0]| == 13 && ASSETS_KEYS[0][0] == 'w' && ASSETS_KEYS[0][1] == 'u';
    MarksTellApart(ASSETS_KEYS);
  }

  lemma KitKeysDiffer()
    ensures Distinct(KIT_KEYS)
  {
    assert |KIT_KEYS[0]| == 4 && KIT_KEYS[0][0] == 's' && KIT_KEYS[0][1] == 'l';
    assert |KIT_KEYS[1]| == 8 && KIT_KEYS[1][0] == 'r' && KIT_KEYS[1][1] == 'e';
    assert |KIT_KEYS[2]| == 11 && KIT_KEYS[2][0] == 'e' && KIT_KEYS[2][1] == 'v';
    assert |KIT_KEYS[3]| == 17 && KIT_KEYS[3][0] == 'r' && KIT_KEYS[3][1] == 'e';
    assert |KIT_KEYS[4]| == 18 && KIT_KEYS[4][0] == 'd' && KIT_KEYS[4][1] == 'r';
    assert |KIT_KEYS[5]| == 21 && KIT_KEYS[5][0] == 'r' && KIT_KEYS[5][1] == 'e';
    MarksTellApart(KIT_KEYS);
  }

  lemma SourceKeysDiffer()
    ensures Distinct(SOURCE_KEYS)
  {
    assert |SOURCE_KEYS[0]| == 3 && SOURCE_KEYS[0][0] == 'a' && SOURCE_KEYS[0][1] == 'p';
    assert |SOURCE_KEYS[1]| == 3 && SOURCE_KEYS[1][0] == 'e' && SOURCE_KEYS[1][1] == 'v';
    assert |SOURCE_KEYS[2]| == 6 && SOURCE_KEYS[2][0] == 's' && SOURCE_KEYS[2][1] == 'a';
    assert |SOURCE_KEYS[3]| == 8 && SOURCE_KEYS[3][0] == 'p' && SOURCE_KEYS[3][1] == 'r';
    assert |SOURCE_KEYS[4]| == 9 && SOURCE_KEYS[4][0] == 'o' && SOURCE_KEYS[4][1] == 'm';
    assert |SOURCE_KEYS[5]| == 11 && SOURCE_KEYS[5][0] == 'a' && SOURCE_KEYS[5][1] == 'd';
    assert |SOURCE_KEYS[6]| == 11 && SOURCE_KEYS[6][0] == 'c' && SOURCE_KEYS[6][1] == 'u';
    assert |SOURCE_KEYS[7]| == 12 && SOURCE_KEYS[7][0] == 'k' && SOURCE_KEYS[7][1] == 'e';
    assert |SOURCE_KEYS[8]| == 13 && SOURCE_KEYS[8][0] == 'l' && SOURCE_KEYS[8][1] == 'e';
    MarksTellApart(SOURCE_KEYS);
  }

  lemma AddressKeysDiffer()
    ensures Distinct(ADDRESS_KEYS)
  {
    assert |ADDRESS_KEYS[0]| == 9 && ADDRESS_KEYS[0][0] == 'f' && ADDRESS_KEYS[0][1] == 'o';
    assert |ADDRESS_KEYS[1]| == 15 && ADDRESS_KEYS[1][0] == 'v' && ADDRESS_KEYS[1][1] == 'e';
    assert |ADDRESS_KEYS[2]| == 18 && ADDRESS_KEYS[2][0] == 'a' && ADDRESS_KEYS[2][1] == 't';
    MarksTellApart(ADDRESS_KEYS);
  }

  lemma FirstPayloadKeysIncrease()
    ensures MarksIncrease(FIRST_PAYLOAD_KEYS) && Mark(FIRST_PAYLOAD_KEYS[0]) == 1_000_000 * 5 + 29556
    ensures Mark(FIRST_PAYLOAD_KEYS[7]) == 1_000_000 * 11 + 25202
  {
    assert |FIRST_PAYLOAD_KEYS[0]| == 5 && FIRST_PAYLOAD_KEYS[0][0] == 's' && FIRST_PAYLOAD_KEYS[0][1] == 't';
    assert |FIRST_PAYLOAD_KEYS[1]| == 6 && FIRST_PAYLOAD_KEYS[1][0] == 's' && FIRST_PAYLOAD_KEYS[1][1] == 'c';
    assert |FIRST_PAYLOAD_KEYS[2]| == 7 && FIRST_PAYLOAD_KEYS[2][0] == 'n' && FIRST_PAYLOAD_KEYS[2][1] == 'e';
    assert |FIRST_PAYLOAD_KEYS[3]| == 9 && FIRST_PAYLOAD_KEYS[3][0] == 'e' && FIRST_PAYLOAD_KEYS[3][1] == 'x';
    assert |FIRST_PAYLOAD_KEYS[4]| == 10 && FIRST_PAYLOAD_KEYS[4][0] == 'c' && FIRST_PAYLOAD_KEYS[4][1] == 'e';
    assert |FIRST_PAYLOAD_KEYS[5]| == 10 && FIRST_PAYLOAD_KEYS[5][0] == 'e' && FIRST_PAYLOAD_KEYS[5][1] == 'v';
    assert |FIRST_PAYLOAD_KEYS[6]| == 10 && FIRST_PAYLOAD_KEYS[6][0] == 's' && FIRST_PAYLOAD_KEYS[6][1] == 'o';
    assert |FIRST_PAYLOAD_KEYS[7]| == 11 && FIRST_PAYLOAD_KEYS[7][0] == 'b' && FIRST_PAYLOAD_KEYS[7][1] == 'r';
  }

  lemma SecondPayloadKeysIncrease()
    ensures MarksIncrease(SECOND_PAYLOAD_KEYS) && Mark(SECOND_PAYLOAD_KEYS[0]) == 1_000_000 * 11 + 27745
    ensures Mark(SECOND_PAYLOAD_KEYS[7]) == 1_000_000 * 14 + 26980
  {
    assert |SECOND_PAYLOAD_KEYS[0]| == 11 && SECOND_PAYLOAD_KEYS[0][0] == 'l' && SECOND_PAYLOAD_KEYS[0][1] == 'a';
    assert |SECOND_PAYLOAD_KEYS[1]| == 12 && SECOND_PAYLOAD_KEYS[1][0] == 'e' && SECOND_PAYLOAD_KEYS[1][1] == 'v';
    assert |SECOND_PAYLOAD_KEYS[2]| == 12 && SECOND_PAYLOAD_KEYS[2][0] == 'p' && SECOND_PAYLOAD_KEYS[2][1] == 'u';
    assert |SECOND_PAYLOAD_KEYS[3]| == 12 && SECOND_PAYLOAD_KEYS[3][0] == 'v' && SECOND_PAYLOAD_KEYS[3][1] == 'a';
    assert |SECOND_PAYLOAD_KEYS[4]| == 13 && SECOND_PAYLOAD_KEYS[4][0] == 't' && SECOND_PAYLOAD_KEYS[4][1] == 'r';
    assert |SECOND_PAYLOAD_KEYS[5]| == 14 && SECOND_PAYLOAD_KEYS[5][0] == 'a' && SECOND_PAYLOAD_KEYS[5][1] == 'd';
    assert |SECOND_PAYLOAD_KEYS[6]| == 14 && SECOND_PAYLOAD_KEYS[6][0] == 'f' && SECOND_PAYLOAD_KEYS[6][1] == 'u';
    assert |SECOND_PAYLOAD_KEYS[7]| == 14 && SECOND_PAYLOAD_KEYS[7][0] == 'i' && SECOND_PAYLOAD_KEYS[7][1] == 'd';
  }

  lemma ThirdPayloadKeysIncrease()
    ensures MarksIncrease(THIRD_PAYLOAD_KEYS) && Mark(THIRD_PAYLOAD_KEYS[0]) == 1_000_000 * 14 + 28769
    ensures Mark(THIRD_PAYLOAD_KEYS[7]) == 1_000_000 * 18 + 28786
  {
    assert |THIRD_PAYLOAD_KEYS[0]| == 14 && THIRD_PAYLOAD_KEYS[0][0] == 'p' && THIRD_PAYLOAD_KEYS[0][1] == 'a';
    assert |THIRD_PAYLOAD_KEYS[1]| == 14 && THIRD_PAYLOAD_KEYS[1][0] == 'p' && THIRD_PAYLOAD_KEYS[1][1] == 'e';
    assert |THIRD_PAYLOAD_KEYS[2]| == 15 && THIRD_PAYLOAD_KEYS[2][0] == 'p' && THIRD_PAYLOAD_KEYS[2][1] == 'r';
    assert |THIRD_PAYLOAD_KEYS[3]| == 15 && THIRD_PAYLOAD_KEYS[3][0] == 's' && THIRD_PAYLOAD_KEYS[3][1] == 'o';
    assert |THIRD_PAYLOAD_KEYS[4]| == 16 && THIRD_PAYLOAD_KEYS[4][0] == 'f' && THIRD_PAYLOAD_KEYS[4][1] == 'a';
    assert |THIRD_PAYLOAD_KEYS[5]| == 17 && THIRD_PAYLOAD_KEYS[5][0] == 'a' && THIRD_PAYLOAD_KEYS[5][1] == 'd';
    assert |THIRD_PAYLOAD_KEYS[6]| == 17 && THIRD_PAYLOAD_KEYS[6][0] == 'p' && THIRD_PAYLOAD_KEYS[6][1] == 'o';
    assert |THIRD_PAYLOAD_KEYS[7]| == 18 && THIRD_PAYLOAD_KEYS[7][0] == 'p' && THIRD_PAYLOAD_KEYS[7][1] == 'r';
  }

  lemma FourthPayloadKeysIncrease()
    ensures MarksIncrease(FOURTH_PAYLOAD_KEYS) && Mark(FOURTH_PAYLOAD_KEYS[0]) == 1_000_000 * 18 + 29285
    ensures Mark(FOURTH_PAYLOAD_KEYS[8]) == 1_000_000 * 30 + 29285
  {
    assert |FOURTH_PAYLOAD_KEYS[0]| == 18 && FOURTH_PAYLOAD_KEYS[0][0] == 'r' && FOURTH_PAYLOAD_KEYS[0][1] == 'e';
    assert |FOURTH_PAYLOAD_KEYS[1]| == 19 && FOURTH_PAYLOAD_KEYS[1][0] == 'g' && FOURTH_PAYLOAD_KEYS[1][1] == 'o';
    assert |FOURTH_PAYLOAD_KEYS[2]| == 19 && FOURTH_PAYLOAD_KEYS[2][0] == 't' && FOURTH_PAYLOAD_KEYS[2][1] == 'r';
    assert |FOURTH_PAYLOAD_KEYS[3]| == 20 && FOURTH_PAYLOAD_KEYS[3][0] == 'e' && FOURTH_PAYLOAD_KEYS[3][1] == 'n';
    assert |FOURTH_PAYLOAD_KEYS[4]| == 20 && FOURTH_PAYLOAD_KEYS[4][0] == 'k' && FOURTH_PAYLOAD_KEYS[4][1] == 'o';
    assert |FOURTH_PAYLOAD_KEYS[5]| == 21 && FOURTH_PAYLOAD_KEYS[5][0] == 's' && FOURTH_PAYLOAD_KEYS[5][1] == 'o';
    assert |FOURTH_PAYLOAD_KEYS[6]| == 22 && FOURTH_PAYLOAD_KEYS[6][0] == 'a' && FOURTH_PAYLOAD_KEYS[6][1] == 'u';
    assert |FOURTH_PAYLOAD_KEYS[7]| == 24 && FOURTH_PAYLOAD_KEYS[7][0] == 'c' && FOURTH_PAYLOAD_KEYS[7][1] == 'a';
    assert |FOURTH_PAYLOAD_KEYS[8]| == 30 && FOURTH_PAYLOAD_KEYS[8][0] == 'r' && FOURTH_PAYLOAD_KEYS[8][1] == 'e';
  }

  lemma PayloadKeysDiffer()
    ensures Distinct(PayloadKeys())
  {
    hide Mark, MarksIncrease;
    FirstPayloadKeysIncrease();
    SecondPayloadKeysIncrease();
    ThirdPayloadKeysIncrease();
    FourthPayloadKeysIncrease();
    MarksJoin(FIRST_PAYLOAD_KEYS, SECOND_PAYLOAD_KEYS);
    MarksJoin(FIRST_PAYLOAD_KEYS + SECOND_PAYLOAD_KEYS, THIRD_PAYLOAD_KEYS);
    MarksJoin(FIRST_PAYLOAD_KEYS + SECOND_PAYLOAD_KEYS + THIRD_PAYLOAD_KEYS, FOURTH_PAYLOAD_KEYS);
    MarksTellApart(PayloadKeys());
  }

  // ---------------------------------------------------------------- what a value binds

  predicate SameNames(order: seq<Name>, m: map<Name, string>, n: map<Name, string>) {
    forall i :: 0 <= i < |order| ==>
      (order[i] in m <==> order[i] in n) && (order[i] in m && order[i] in n ==> m[order[i]] == n[order[i]])
  }

  lemma PlainIsBlock(j: Json)
    requires Plain(j)
    ensures Proper(j) && CleanValue(j)
  {
  }

  lemma SamePlain(j: Json, k: Json)
    requires Plain(j) && Plain(k)
    ensures SameValue(Some(j), Some(k)) <==> j == k
  {
  }

  lemma SameText(s: string, t: string)
    ensures SameValue(Some(TextJson(s)), Some(TextJson(t))) <==> s == t
  {
    CharsInjective(s, t);
  }

  lemma SameTexts(ss: seq<string>, ts: seq<string>)
    ensures SameValue(Some(List(Texts(ss))), Some(List(Texts(ts)))) <==> ss == ts
  {
    hide Texts, List, SameValue, Plain;
    PlainTexts(ss);
    PlainTexts(ts);
    SamePlain(List(Texts(ss)), List(Texts(ts)));
    if List(Texts(ss)) == List(Texts(ts)) {
      TextsInjective(ss, ts);
    }
  }

  lemma SameMaybeNum(n: Option<int>, m: Option<int>)
    ensures SameValue(MaybeNum(n), MaybeNum(m)) <==> n == m
  {
  }

  lemma NamedIsBlock(keys: seq<string>, order: seq<Name>, m: map<Name, string>)
    requires |keys| == |order| && Distinct(keys)
    ensures AllBlocks(NamedValues(order, m))
    ensures Proper(NamedTexts(keys, order, m)) && CleanValue(NamedTexts(keys, order, m))
  {
    hide Proper, CleanValue, Fields, Distinct, TextJson, Plain;
    var vs := NamedValues(order, m);
    forall i | 0 <= i < |vs| && vs[i].Some?
      ensures Proper(vs[i].value) && CleanValue(vs[i].value)
    {
      PlainText(m[order[i]]);
      PlainIsBlock(TextJson(m[order[i]]));
    }
    FieldsAreBlock(keys, vs);
  }

  lemma SameNamed(keys: seq<string>, order: seq<Name>, m: map<Name, string>, n: map<Name, string>)
    requires |keys| == |order| && Distinct(keys)
    ensures SameValue(Some(NamedTexts(keys, order, m)), Some(NamedTexts(keys, order, n))) <==> SameNames(order, m, n)
  {
    hide Norm, Fields, Distinct, TextJson;
    NamedIsBlock(keys, order, m);
    NamedIsBlock(keys, order, n);
    var vs, ws := NamedValues(order, m), NamedValues(order, n);
    FieldsAgree(keys, vs, ws);
    forall i | 0 <= i < |order|
      ensures SameValue(vs[i], ws[i]) <==>
              (order[i] in m <==> order[i] in n) && (order[i] in m && order[i] in n ==> m[order[i]] == n[order[i]])
    {
      if order[i] in m && order[i] in n {
        SameText(m[order[i]], n[order[i]]);
      }
    }
  }

  lemma PlainNumber(n: int)
    ensures Plain(Num(n))
  {
  }

  predicate SameAll(vs: seq<Option<Json>>, ws: seq<Option<Json>>)
    requires |vs| == |ws|
  {
    forall i :: 0 <= i < |vs| ==> SameValue(vs[i], ws[i])
  }

  lemma TextIsBlock(s: string)
    ensures Proper(TextJson(s)) && CleanValue(TextJson(s))
  {
    PlainText(s);
  }

  lemma TextsAreBlock(ss: seq<string>)
    ensures Proper(List(Texts(ss))) && CleanValue(List(Texts(ss)))
  {
    PlainTexts(ss);
  }

  lemma MaybeNumIsBlock(n: Option<int>)
    ensures MaybeNum(n).Some? ==> Proper(MaybeNum(n).value) && CleanValue(MaybeNum(n).value)
  {
  }

  lemma AllBlocksJoin(a: seq<Option<Json>>, b: seq<Option<Json>>)
    requires AllBlocks(a) && AllBlocks(b)
    ensures AllBlocks(a + b)
  {
    hide Proper, CleanValue;
  }

  lemma SameAllJoins(a: seq<Option<Json>>, b: seq<Option<Json>>, c: seq<Option<Json>>, d: seq<Option<Json>>)
    requires |a| == |c| && |b| == |d|
    ensures SameAll(a + b, c + d) <==> SameAll(a, c) && SameAll(b, d)
  {
    hide SameValue;
    var x, y := a + b, c + d;
    if SameAll(a, c) && SameAll(b, d) {
      forall i | 0 <= i < |x|
        ensures SameValue(x[i], y[i])
      {
        if i < |a| {
          assert SameValue(a[i], c[i]);
        } else {
          assert SameValue(b[i - |a|], d[i - |a|]);
        }
      }
    }
    if SameAll(x, y) {
      forall i | 0 <= i < |b|
        ensures SameValue(b[i], d[i])
      {
        assert SameValue(x[|a| + i], y[|a| + i]);
      }
      forall i | 0 <= i < |a|
        ensures SameValue(a[i], c[i])
      {
        assert SameValue(x[i], y[i]);
      }
    }
  }

  /** The same up to the order of keys. */
  predicate SameBlock(a: Block, b: Block) {
    SameValue(Some(a), Some(b))
  }

  lemma BlocksAgree(j: Json, k: Json)
    ensures SameValue(Some(j), Some(k)) <==> Norm(j) == Norm(k)
  {
  }

  lemma SameNum(n: int, m: int)
    ensures SameValue(Some(Num(n)), Some(Num(m))) <==> n == m
  {
  }

  lemma NumIsBlock(n: int)
    ensures Proper(Num(n)) && CleanValue(Num(n))
  {
  }

  lemma FlagIsBlock(b: bool)
    ensures Proper(Bool(b)) && CleanValue(Bool(b))
  {
  }

  lemma NumbersAreBlock(ns: seq<int>)
    ensures Proper(List(Numbers(ns))) && CleanValue(List(Numbers(ns)))
  {
    PlainNumbers(ns);
  }

  lemma SameTextAt(ss: seq<string>, ts: seq<string>, i: nat)
    requires i < |ss| && i < |ts|
    ensures SameValue(TextAt(ss, i), TextAt(ts, i)) <==> ss[i] == ts[i]
    ensures TextAt(ss, i).Some? && Proper(TextAt(ss, i).value) && CleanValue(TextAt(ss, i).value)
  {
    hide TextJson, Norm, Proper, CleanValue;
    SameText(ss[i], ts[i]);
    TextIsBlock(ss[i]);
  }

  lemma SameNumAt(ns: seq<int>, ms: seq<int>, i: nat)
    requires i < |ns| && i < |ms|
    ensures SameValue(NumAt(ns, i), NumAt(ms, i)) <==> ns[i] == ms[i]
    ensures NumAt(ns, i).Some? && Proper(NumAt(ns, i).value) && CleanValue(NumAt(ns, i).value)
  {
  }

  lemma NineAgree<T>(s: seq<T>, t: seq<T>)
    requires |s| == |t| == 9
    ensures s == t <==>
              && s[0] == t[0] && s[1] == t[1] && s[2] == t[2] && s[3] == t[3] && s[4] == t[4]
              && s[5] == t[5] && s[6] == t[6] && s[7] == t[7] && s[8] == t[8]
  {
  }

  lemma SixAgree<T>(s: seq<T>, t: seq<T>)
    requires |s| == |t| == 6
    ensures s[..3] == t[..3] <==> s[0] == t[0] && s[1] == t[1] && s[2] == t[2]
    ensures s[4..] == t[4..] <==> s[4] == t[4] && s[5] == t[5]
    ensures s == t <==> s[..3] == t[..3] && s[3] == t[3] && s[4..] == t[4..]
  {
    assert s == s[..3] + [s[3]] + s[4..] && t == t[..3] + [t[3]] + t[4..];
    var a, b := s[4..], t[4..];
    assert a[0] == s[4] && a[1] == s[5] && b[0] == t[4] && b[1] == t[5];
  }

  lemma {:induction false} ListAgrees(js: seq<Json>, ks: seq<Json>)
    requires |js| == |ks|
    ensures Norm(List(js)) == Norm(List(ks)) <==> forall i :: 0 <= i < |js| ==> Norm(js[i]) == Norm(ks[i])
  {
    if js != [] {
      ListAgrees(js[1..], ks[1..]);
      assert forall i :: 1 <= i < |js| ==> js[i] == js[1..][i - 1] && ks[i] == ks[1..][i - 1];
      if forall i :: 0 <= i < |js| ==> Norm(js[i]) == Norm(ks[i]) {
        assert forall i :: 0 <= i < |js[1..]| ==> js[1..][i] == js[i + 1] && ks[1..][i] == ks[i + 1];
      }
    }
  }

  lemma {:induction false} ListIsBlock(js: seq<Json>)
    requires forall i :: 0 <= i < |js| ==> Proper(js[i]) && CleanValue(js[i])
    ensures Proper(List(js)) && CleanValue(List(js))
  {
    if js != [] {
      ListIsBlock(js[1..]);
    }
  }

  lemma Same1(vs: seq<Option<Json>>, ws: seq<Option<Json>>)
    requires |vs| == |ws| == 1
    ensures SameAll(vs, ws) <==>
              && SameValue(vs[0], ws[0])
  {
    hide SameValue;
  }

  lemma Same2(vs: seq<Option<Json>>, ws: seq<Option<Json>>)
    requires |vs| == |ws| == 2
    ensures SameAll(vs, ws) <==>
              && SameValue(vs[0], ws[0]) && SameValue(vs[1], ws[1])
  {
    hide SameValue;
  }

  lemma Same5(vs: seq<Option<Json>>, ws: seq<Option<Json>>)
    requires |vs| == |ws| == 5
    ensures SameAll(vs, ws) <==>
              && SameValue(vs[0], ws[0]) && SameValue(vs[1], ws[1]) && SameValue(vs[2], ws[2])
              && SameValue(vs[3], ws[3]) && SameValue(vs[4], ws[4])
  {
    hide SameValue;
  }

  lemma Same6(vs: seq<Option<Json>>, ws: seq<Option<Json>>)
    requires |vs| == |ws| == 6
    ensures SameAll(vs, ws) <==>
              && SameValue(vs[0], ws[0]) && SameValue(vs[1], ws[1]) && SameValue(vs[2], ws[2])
              && SameValue(vs[3], ws[3]) && SameValue(vs[4], ws[4]) && SameValue(vs[5], ws[5])
  {
    hide SameValue;
  }

  lemma Same8(vs: seq<Option<Json>>, ws: seq<Option<Json>>)
    requires |vs| == |ws| == 8
    ensures SameAll(vs, ws) <==>
              && SameValue(vs[0], ws[0]) && SameValue(vs[1], ws[1]) && SameValue(vs[2], ws[2])
              && SameValue(vs[3], ws[3]) && SameValue(vs[4], ws[4]) && SameValue(vs[5], ws[5])
              && SameValue(vs[6], ws[6]) && SameValue(vs[7], ws[7])
  {
    hide SameValue;
  }

  lemma Same9(vs: seq<Option<Json>>, ws: seq<Option<Json>>)
    requires |vs| == |ws| == 9
    ensures SameAll(vs, ws) <==>
              && SameValue(vs[0], ws[0]) && SameValue(vs[1], ws[1]) && SameValue(vs[2], ws[2])
              && SameValue(vs[3], ws[3]) && SameValue(vs[4], ws[4]) && SameValue(vs[5], ws[5])
              && SameValue(vs[6], ws[6]) && SameValue(vs[7], ws[7]) && SameValue(vs[8], ws[8])
  {
    hide SameValue;
  }

  lemma Same10(vs: seq<Option<Json>>, ws: seq<Option<Json>>)
    requires |vs| == |ws| == 10
    ensures SameAll(vs, ws) <==>
              && SameValue(vs[0], ws[0]) && SameValue(vs[1], ws[1]) && SameValue(vs[2], ws[2])
              && SameValue(vs[3], ws[3]) && SameValue(vs[4], ws[4]) && SameValue(vs[5], ws[5])
              && SameValue(vs[6], ws[6]) && SameValue(vs[7], ws[7]) && SameValue(vs[8], ws[8])
              && SameValue(vs[9], ws[9])
  {
    hide SameValue;
  }

  // ---------------------------------------------------------------- what the object binds

  /** The payload has all its parts. */
  predicate Shaped(p: Payload) {
    |p.funding| == 9 && |p.parameters| == 9 && |p.destinations| == 6 && |p.kits| == 3
  }

  predicate SameSeed(p: Payload, q: Payload)
    requires Shaped(p) && Shaped(q)
  {
    p.seedVersion == q.seedVersion && SameBlock(p.derived.seedPuzzleHash, q.derived.seedPuzzleHash)
    && SameBlock(p.derived.seedCoinId, q.derived.seedCoinId)
  }

  lemma SeedValuesBind(p: Payload, q: Payload)
    requires Shaped(p) && Shaped(q)
    ensures SameAll(SeedValues(p), SeedValues(q)) <==> SameSeed(p, q)
    ensures AllBlocks(SeedValues(p))
  {
    hide TextJson, Texts, Numbers, List, TextAt, NumAt, MaybeNum, Norm, Proper, CleanValue, SameAll;
    NumIsBlock(1);
    TextIsBlock("permanent-cat-lineage-anchor");
    SameMaybeNum(p.seedVersion, q.seedVersion);
    MaybeNumIsBlock(p.seedVersion);
    FlagIsBlock(false);
    Same6(SeedValues(p), SeedValues(q));
  }

  lemma SeedBinds(p: Payload, q: Payload)
    requires Shaped(p) && Shaped(q)
    ensures SameValue(Some(SeedJson(p)), Some(SeedJson(q))) <==> SameSeed(p, q)
    ensures Proper(SeedJson(p)) && CleanValue(SeedJson(p))
  {
    hide Fields, Norm, Proper, CleanValue, AllBlocks, Distinct, SameValue, SeedValues;
    SeedValuesBind(p, q);
    SeedValuesBind(q, p);
    SeedKeysDiffer();
    FieldsAgree(SEED_KEYS, SeedValues(p), SeedValues(q));
    FieldsAreBlock(SEED_KEYS, SeedValues(p));
    BlocksAgree(SeedJson(p), SeedJson(q));
  }

  predicate SameFunding(p: Payload, q: Payload)
    requires Shaped(p) && Shaped(q)
  {
    p.funding == q.funding
  }

  lemma FundingValuesBind(p: Payload, q: Payload)
    requires Shaped(p) && Shaped(q)
    ensures SameAll(FundingValues(p), FundingValues(q)) <==> SameFunding(p, q)
    ensures AllBlocks(FundingValues(p))
  {
    hide TextJson, Texts, Numbers, List, TextAt, NumAt, MaybeNum, Norm, Proper, CleanValue, SameAll;
    SameTextAt(p.funding, q.funding, 2);
    SameTextAt(p.funding, q.funding, 0);
    SameTextAt(p.funding, q.funding, 1);
    SameTextAt(p.funding, q.funding, 4);
    SameTextAt(p.funding, q.funding, 3);
    SameTextAt(p.funding, q.funding, 8);
    SameTextAt(p.funding, q.funding, 6);
    SameTextAt(p.funding, q.funding, 5);
    SameTextAt(p.funding, q.funding, 7);
    NineAgree(p.funding, q.funding);
    Same9(FundingValues(p), FundingValues(q));
  }

  lemma FundingBinds(p: Payload, q: Payload)
    requires Shaped(p) && Shaped(q)
    ensures SameValue(Some(FundingJson(p)), Some(FundingJson(q))) <==> SameFunding(p, q)
    ensures Proper(FundingJson(p)) && CleanValue(FundingJson(p))
  {
    hide Fields, Norm, Proper, CleanValue, AllBlocks, Distinct, SameValue, FundingValues;
    FundingValuesBind(p, q);
    FundingValuesBind(q, p);
    FundingKeysDiffer();
    FieldsAgree(FUNDING_KEYS, FundingValues(p), FundingValues(q));
    FieldsAreBlock(FUNDING_KEYS, FundingValues(p));
    BlocksAgree(FundingJson(p), FundingJson(q));
  }

  predicate SameParameters(p: Payload, q: Payload)
    requires Shaped(p) && Shaped(q)
  {
    p.parameters == q.parameters && SameBlock(p.derived.totalSupply, q.derived.totalSupply)
  }

  lemma ParametersValuesBind(p: Payload, q: Payload)
    requires Shaped(p) && Shaped(q)
    ensures SameAll(ParametersValues(p), ParametersValues(q)) <==> SameParameters(p, q)
    ensures AllBlocks(ParametersValues(p))
  {
    hide TextJson, Texts, Numbers, List, TextAt, NumAt, MaybeNum, Norm, Proper, CleanValue, SameAll;
    SameNumAt(p.parameters, q.parameters, 1);
    SameNumAt(p.parameters, q.parameters, 5);
    SameNumAt(p.parameters, q.parameters, 6);
    SameNumAt(p.parameters, q.parameters, 2);
    SameNumAt(p.parameters, q.parameters, 7);
    SameNumAt(p.parameters, q.parameters, 3);
    SameNumAt(p.parameters, q.parameters, 8);
    SameNumAt(p.parameters, q.parameters, 4);
    SameNumAt(p.parameters, q.parameters, 0);
    NineAgree(p.parameters, q.parameters);
    Same10(ParametersValues(p), ParametersValues(q));
  }

  lemma ParametersBinds(p: Payload, q: Payload)
    requires Shaped(p) && Shaped(q)
    ensures SameValue(Some(ParametersJson(p)), Some(ParametersJson(q))) <==> SameParameters(p, q)
    ensures Proper(ParametersJson(p)) && CleanValue(ParametersJson(p))
  {
    hide Fields, Norm, Proper, CleanValue, AllBlocks, Distinct, SameValue, ParametersValues;
    ParametersValuesBind(p, q);
    ParametersValuesBind(q, p);
    ParametersKeysDiffer();
    FieldsAgree(PARAMETERS_KEYS, ParametersValues(p), ParametersValues(q));
    FieldsAreBlock(PARAMETERS_KEYS, ParametersValues(p));
    BlocksAgree(ParametersJson(p), ParametersJson(q));
  }

  predicate SameState(p: Payload, q: Payload)
    requires Shaped(p) && Shaped(q)
  {
    p.versions == q.versions && SameBlock(p.derived.statutesVersion, q.derived.statutesVersion)
    && SameBlock(p.derived.statutesContent, q.derived.statutesContent)
    && SameBlock(p.derived.statutesRoots, q.derived.statutesRoots)
    && SameBlock(p.derived.poolVersion, q.derived.poolVersion)
    && SameBlock(p.derived.poolCommitment, q.derived.poolCommitment)
  }

  lemma StateValuesBind(p: Payload, q: Payload)
    requires Shaped(p) && Shaped(q)
    ensures SameAll(StateValues(p), StateValues(q)) <==> SameState(p, q)
    ensures AllBlocks(StateValues(p))
  {
    hide TextJson, Texts, Numbers, List, TextAt, NumAt, MaybeNum, Norm, Proper, CleanValue, SameAll;
    SameNum(p.versions.vault, q.versions.vault);
    NumIsBlock(p.versions.vault);
    SameNum(p.versions.authority, q.versions.authority);
    NumIsBlock(p.versions.authority);
    SameNum(p.versions.config, q.versions.config);
    NumIsBlock(p.versions.config);
    SameNum(p.versions.registry, q.versions.registry);
    NumIsBlock(p.versions.registry);
    Same9(StateValues(p), StateValues(q));
  }

  lemma StateBinds(p: Payload, q: Payload)
    requires Shaped(p) && Shaped(q)
    ensures SameValue(Some(StateJson(p)), Some(StateJson(q))) <==> SameState(p, q)
    ensures Proper(StateJson(p)) && CleanValue(StateJson(p))
  {
    hide Fields, Norm, Proper, CleanValue, AllBlocks, Distinct, SameValue, StateValues;
    StateValuesBind(p, q);
    StateValuesBind(q, p);
    StateKeysDiffer();
    FieldsAgree(STATE_KEYS, StateValues(p), StateValues(q));
    FieldsAreBlock(STATE_KEYS, StateValues(p));
    BlocksAgree(StateJson(p), StateJson(q));
  }

  predicate SameFirstAdmin(p: Payload, q: Payload)
    requires Shaped(p) && Shaped(q)
  {
    && SameBlock(p.derived.adminsHash, q.derived.adminsHash)
  }

  lemma FirstAdminValuesBind(p: Payload, q: Payload)
    requires Shaped(p) && Shaped(q)
    ensures SameAll(FirstAdminValues(p), FirstAdminValues(q)) <==> SameFirstAdmin(p, q)
    ensures AllBlocks(FirstAdminValues(p))
  {
    hide TextJson, Texts, Numbers, List, TextAt, NumAt, MaybeNum, Norm, Proper, CleanValue, SameAll;
    TextIsBlock("owner-plus-one");
    FlagIsBlock(false);
    NumIsBlock(3);
    NumIsBlock(2);
    NumIsBlock(0);
    NumIsBlock(16);
    NumbersAreBlock([1, 2]);
    Same8(FirstAdminValues(p), FirstAdminValues(q));
  }

  predicate SameSecondAdmin(p: Payload, q: Payload)
    requires Shaped(p) && Shaped(q)
  {
    && SameBlock(p.derived.identityVaults, q.derived.identityVaults)
    && p.adminKeys == q.adminKeys
    && SameBlock(p.derived.sourceManifest, q.derived.sourceManifest)
    && SameBlock(p.derived.operationalRoot, q.derived.operationalRoot)
    && SameBlock(p.derived.lostRoots, q.derived.lostRoots)
  }

  lemma SecondAdminValuesBind(p: Payload, q: Payload)
    requires Shaped(p) && Shaped(q)
    ensures SameAll(SecondAdminValues(p), SecondAdminValues(q)) <==> SameSecondAdmin(p, q)
    ensures AllBlocks(SecondAdminValues(p))
  {
    hide TextJson, Texts, Numbers, List, TextAt, NumAt, MaybeNum, Norm, Proper, CleanValue, SameAll;
    NumIsBlock(1);
    SameTexts(p.adminKeys, q.adminKeys);
    TextsAreBlock(p.adminKeys);
    NumIsBlock(604_800);
    NumIsBlock(86_400);
    Same8(SecondAdminValues(p), SecondAdminValues(q));
  }

  predicate SameAdmin(p: Payload, q: Payload)
    requires Shaped(p) && Shaped(q)
  {
    p.adminKeys == q.adminKeys && SameBlock(p.derived.sourceManifest, q.derived.sourceManifest)
    && SameBlock(p.derived.operationalRoot, q.derived.operationalRoot)
    && SameBlock(p.derived.lostRoots, q.derived.lostRoots)
    && SameBlock(p.derived.identityVaults, q.derived.identityVaults)
    && SameBlock(p.derived.adminsHash, q.derived.adminsHash)
  }

  lemma AdminBinds(p: Payload, q: Payload)
    requires Shaped(p) && Shaped(q)
    ensures SameValue(Some(AdminJson(p)), Some(AdminJson(q))) <==> SameAdmin(p, q)
    ensures Proper(AdminJson(p)) && CleanValue(AdminJson(p))
  {
    hide Fields, Norm, Proper, CleanValue, AllBlocks, Distinct, SameValue, FirstAdminValues, SecondAdminValues;
    FirstAdminValuesBind(p, q);
    SecondAdminValuesBind(p, q);
    FirstAdminValuesBind(q, p);
    SecondAdminValuesBind(q, p);
    SameAllJoins(FirstAdminValues(p), SecondAdminValues(p),
                 FirstAdminValues(q), SecondAdminValues(q));
    AllBlocksJoin(FirstAdminValues(p), SecondAdminValues(p));
    AllBlocksJoin(FirstAdminValues(q), SecondAdminValues(q));
    AdminKeysDiffer();
    FieldsAgree(AdminKeys(), AdminValues(p), AdminValues(q));
    FieldsAreBlock(AdminKeys(), AdminValues(p));
    BlocksAgree(AdminJson(p), AdminJson(q));
  }

  predicate SameValidators(p: Payload, q: Payload)
    requires Shaped(p) && Shaped(q)
  {
    p.validators == q.validators
  }

  lemma ValidatorsValuesBind(p: Payload, q: Payload)
    requires Shaped(p) && Shaped(q)
    ensures SameAll(ValidatorsValues(p), ValidatorsValues(q)) <==> SameValidators(p, q)
    ensures AllBlocks(ValidatorsValues(p))
  {
    hide TextJson, Texts, Numbers, List, TextAt, NumAt, MaybeNum, Norm, Proper, CleanValue, SameAll;
    SameTexts(p.validators, q.validators);
    TextsAreBlock(p.validators);
    NumIsBlock(2);
    Same2(ValidatorsValues(p), ValidatorsValues(q));
  }

  lemma ValidatorsBinds(p: Payload, q: Payload)
    requires Shaped(p) && Shaped(q)
    ensures SameValue(Some(ValidatorsJson(p)), Some(ValidatorsJson(q))) <==> SameValidators(p, q)
    ensures Proper(ValidatorsJson(p)) && CleanValue(ValidatorsJson(p))
  {
    hide Fields, Norm, Proper, CleanValue, AllBlocks, Distinct, SameValue, ValidatorsValues;
    ValidatorsValuesBind(p, q);
    ValidatorsValuesBind(q, p);
    ValidatorsKeysDiffer();
    FieldsAgree(VALIDATORS_KEYS, ValidatorsValues(p), ValidatorsValues(q));
    FieldsAreBlock(VALIDATORS_KEYS, ValidatorsValues(p));
    BlocksAgree(ValidatorsJson(p), ValidatorsJson(q));
  }

  predicate SameDestinations(p: Payload, q: Payload)
    requires Shaped(p) && Shaped(q)
  {
    p.destinations[..3] == q.destinations[..3] && p.destinations[4..] == q.destinations[4..]
  }

  lemma DestinationsValuesBind(p: Payload, q: Payload)
    requires Shaped(p) && Shaped(q)
    ensures SameAll(DestinationsValues(p), DestinationsValues(q)) <==> SameDestinations(p, q)
    ensures AllBlocks(DestinationsValues(p))
  {
    hide TextJson, Texts, Numbers, List, TextAt, NumAt, MaybeNum, Norm, Proper, CleanValue, SameAll;
    SameTextAt(p.destinations, q.destinations, 5);
    SameTextAt(p.destinations, q.destinations, 0);
    SameTextAt(p.destinations, q.destinations, 1);
    SameTextAt(p.destinations, q.destinations, 4);
    SameTextAt(p.destinations, q.destinations, 2);
    SixAgree(p.destinations, q.destinations);
    Same5(DestinationsValues(p), DestinationsValues(q));
  }

  lemma DestinationsBinds(p: Payload, q: Payload)
    requires Shaped(p) && Shaped(q)
    ensures SameValue(Some(DestinationsJson(p)), Some(DestinationsJson(q))) <==> SameDestinations(p, q)
    ensures Proper(DestinationsJson(p)) && CleanValue(DestinationsJson(p))
  {
    hide Fields, Norm, Proper, CleanValue, AllBlocks, Distinct, SameValue, DestinationsValues;
    DestinationsValuesBind(p, q);
    DestinationsValuesBind(q, p);
    DestinationsKeysDiffer();
    FieldsAgree(DESTINATIONS_KEYS, DestinationsValues(p), DestinationsValues(q));
    FieldsAreBlock(DESTINATIONS_KEYS, DestinationsValues(p));
    BlocksAgree(DestinationsJson(p), DestinationsJson(q));
  }

  predicate SameAssets(p: Payload, q: Payload)
    requires Shaped(p) && Shaped(q)
  {
    p.destinations[3] == q.destinations[3]
  }

  lemma AssetsValuesBind(p: Payload, q: Payload)
    requires Shaped(p) && Shaped(q)
    ensures SameAll(AssetsValues(p), AssetsValues(q)) <==> SameAssets(p, q)
    ensures AllBlocks(AssetsValues(p))
  {
    hide TextJson, Texts, Numbers, List, TextAt, NumAt, MaybeNum, Norm, Proper, CleanValue, SameAll;
    SameTextAt(p.destinations, q.destinations, 3);
    Same1(AssetsValues(p), AssetsValues(q));
  }

  lemma AssetsBinds(p: Payload, q: Payload)
    requires Shaped(p) && Shaped(q)
    ensures SameValue(Some(AssetsJson(p)), Some(AssetsJson(q))) <==> SameAssets(p, q)
    ensures Proper(AssetsJson(p)) && CleanValue(AssetsJson(p))
  {
    hide Fields, Norm, Proper, CleanValue, AllBlocks, Distinct, SameValue, AssetsValues;
    AssetsValuesBind(p, q);
    AssetsValuesBind(q, p);
    AssetsKeysDiffer();
    FieldsAgree(ASSETS_KEYS, AssetsValues(p), AssetsValues(q));
    FieldsAreBlock(ASSETS_KEYS, AssetsValues(p));
    BlocksAgree(AssetsJson(p), AssetsJson(q));
  }

  predicate SameKit(p: Payload, q: Payload, i: nat)
    requires i < |p.kits| && i < |q.kits|
  {
    p.kits[i] == q.kits[i] && SameBlock(p.derived.Commitment(i), q.derived.Commitment(i))
  }

  lemma KitBinds(p: Payload, q: Payload, i: nat)
    requires i < |p.kits| && i < |q.kits|
    ensures SameValue(Some(KitJson(p, i)), Some(KitJson(q, i))) <==> SameKit(p, q, i)
    ensures Proper(KitJson(p, i)) && CleanValue(KitJson(p, i))
  {
    KitValuesBind(p, q, i);
    KitValuesBind(q, p, i);
    hide Fields, Norm, Proper, CleanValue, AllBlocks, Distinct, SameValue, KitValues, SameKit;
    KitKeysDiffer();
    FieldsAgree(KIT_KEYS, KitValues(p, i), KitValues(q, i));
    FieldsAreBlock(KIT_KEYS, KitValues(p, i));
    BlocksAgree(KitJson(p, i), KitJson(q, i));
  }

  lemma KitValuesBind(p: Payload, q: Payload, i: nat)
    requires i < |p.kits| && i < |q.kits|
    ensures SameAll(KitValues(p, i), KitValues(q, i)) <==> SameKit(p, q, i)
    ensures AllBlocks(KitValues(p, i))
  {
    hide TextJson, Norm, Proper, CleanValue, SameAll;
    var k, l := p.kits[i], q.kits[i];
    NumIsBlock(i);
    SameNum(k.revision, l.revision);
    NumIsBlock(k.revision);
    SameText(k.guardian, l.guardian);
    TextIsBlock(k.guardian);
    SameText(k.recoveryKey, l.recoveryKey);
    TextIsBlock(k.recoveryKey);
    SameText(k.drill, l.drill);
    TextIsBlock(k.drill);
    Same6(KitValues(p, i), KitValues(q, i));
  }

  predicate SameKits(p: Payload, q: Payload)
    requires Shaped(p) && Shaped(q)
  {
    SameKit(p, q, 0) && SameKit(p, q, 1) && SameKit(p, q, 2)
  }

  lemma KitsBinds(p: Payload, q: Payload)
    requires Shaped(p) && Shaped(q)
    ensures SameValue(Some(KitsJson(p)), Some(KitsJson(q))) <==> SameKits(p, q)
    ensures Proper(KitsJson(p)) && CleanValue(KitsJson(p))
  {
    hide KitJson, SameKit, List, Norm, Proper, CleanValue, SameValue;
    var js := seq(|p.kits|, i requires 0 <= i < |p.kits| => KitJson(p, i));
    var ks := seq(|q.kits|, i requires 0 <= i < |q.kits| => KitJson(q, i));
    forall i | 0 <= i < 3
      ensures Norm(js[i]) == Norm(ks[i]) <==> SameKit(p, q, i)
      ensures Proper(js[i]) && CleanValue(js[i])
    {
      KitBinds(p, q, i);
      BlocksAgree(js[i], ks[i]);
    }
    ListAgrees(js, ks);
    ListIsBlock(js);
    BlocksAgree(List(js), List(ks));
  }

  predicate SameSources(p: Payload, q: Payload)
    requires Shaped(p) && Shaped(q)
  {
    SameNames(SOURCE_ORDER, p.sources, q.sources)
  }

  lemma SourcesBinds(p: Payload, q: Payload)
    requires Shaped(p) && Shaped(q)
    ensures SameValue(Some(SourcesJson(p)), Some(SourcesJson(q))) <==> SameSources(p, q)
    ensures Proper(SourcesJson(p)) && CleanValue(SourcesJson(p))
  {
    hide SameNames, SameValue, NamedTexts, Distinct;
    SourceKeysDiffer();
    SameNamed(SOURCE_KEYS, SOURCE_ORDER, p.sources, q.sources);
    NamedIsBlock(SOURCE_KEYS, SOURCE_ORDER, p.sources);
  }

  predicate SameAddresses(p: Payload, q: Payload)
    requires Shaped(p) && Shaped(q)
  {
    SameNames(ADDRESS_ORDER, p.addresses, q.addresses)
  }

  lemma AddressesBinds(p: Payload, q: Payload)
    requires Shaped(p) && Shaped(q)
    ensures SameValue(Some(AddressesJson(p)), Some(AddressesJson(q))) <==> SameAddresses(p, q)
    ensures Proper(AddressesJson(p)) && CleanValue(AddressesJson(p))
  {
    hide SameNames, SameValue, NamedTexts, Distinct;
    AddressKeysDiffer();
    SameNamed(ADDRESS_KEYS, ADDRESS_ORDER, p.addresses, q.addresses);
    NamedIsBlock(ADDRESS_KEYS, ADDRESS_ORDER, p.addresses);
  }

  predicate SameFirstPayload(p: Payload, q: Payload)
    requires Shaped(p) && Shaped(q)
  {
    && SameState(p, q)
    && p.network == q.network
    && p.expiresAt == q.expiresAt
    && p.ceremonyId == q.ceremonyId
    && p.evmChainId == q.evmChainId
    && SameSources(p, q)
    && SameBlock(p.derived.bridgeBatch, q.derived.bridgeBatch)
  }

  lemma FirstPayloadValuesBind(p: Payload, q: Payload)
    requires Shaped(p) && Shaped(q)
    ensures SameAll(FirstPayloadValues(p), FirstPayloadValues(q)) <==> SameFirstPayload(p, q)
    ensures AllBlocks(FirstPayloadValues(p))
  {
    hide TextJson, Texts, Numbers, List, TextAt, NumAt, MaybeNum, Norm, Proper, CleanValue, SameAll, StateJson,
      SourcesJson, SameState, SameSources;
    StateBinds(p, q);
    TextIsBlock("solslot-genesis-plan-v4");
    SameText(p.network, q.network);
    TextIsBlock(p.network);
    SameNum(p.expiresAt, q.expiresAt);
    NumIsBlock(p.expiresAt);
    SameText(p.ceremonyId, q.ceremonyId);
    TextIsBlock(p.ceremonyId);
    SameNum(p.evmChainId, q.evmChainId);
    NumIsBlock(p.evmChainId);
    SourcesBinds(p, q);
    Same8(FirstPayloadValues(p), FirstPayloadValues(q));
  }

  predicate SameSecondPayload(p: Payload, q: Payload)
    requires Shaped(p) && Shaped(q)
  {
    && SameBlock(p.derived.launcherIds, q.derived.launcherIds)
    && SameAddresses(p, q)
    && SameBlock(p.derived.puzzleHashes, q.derived.puzzleHashes)
    && SameValidators(p, q)
    && SameAssets(p, q)
    && SameAdmin(p, q)
    && SameFunding(p, q)
    && SameValue(p.identityPolicy, q.identityPolicy)
  }

  lemma SecondPayloadValuesBind(p: Payload, q: Payload)
    requires Shaped(p) && Shaped(q)
    ensures SameAll(SecondPayloadValues(p), SecondPayloadValues(q)) <==> SameSecondPayload(p, q)
    ensures AllBlocks(SecondPayloadValues(p))
  {
    hide TextJson, Texts, Numbers, List, TextAt, NumAt, MaybeNum, Norm, Proper, CleanValue, SameAll, AddressesJson,
      ValidatorsJson, AssetsJson, AdminJson, FundingJson, SameAddresses, SameValidators, SameAssets, SameAdmin,
      SameFunding;
    AddressesBinds(p, q);
    ValidatorsBinds(p, q);
    AssetsBinds(p, q);
    AdminBinds(p, q);
    FundingBinds(p, q);
    Same8(SecondPayloadValues(p), SecondPayloadValues(q));
  }

  predicate SameThirdPayload(p: Payload, q: Payload)
    requires Shaped(p) && Shaped(q)
  {
    && p.paymentChain == q.paymentChain
    && SameBlock(p.derived.permanentRules, q.derived.permanentRules)
    && SameSeed(p, q)
    && p.faucet == q.faucet
    && SameKits(p, q)
    && p.poolPuzzleVersion == q.poolPuzzleVersion
    && SameParameters(p, q)
  }

  lemma ThirdPayloadValuesBind(p: Payload, q: Payload)
    requires Shaped(p) && Shaped(q)
    ensures SameAll(ThirdPayloadValues(p), ThirdPayloadValues(q)) <==> SameThirdPayload(p, q)
    ensures AllBlocks(ThirdPayloadValues(p))
  {
    hide TextJson, Texts, Numbers, List, TextAt, NumAt, MaybeNum, Norm, Proper, CleanValue, SameAll, SeedJson,
      KitsJson, ParametersJson, SameSeed, SameKits, SameParameters;
    SameMaybeNum(p.paymentChain, q.paymentChain);
    MaybeNumIsBlock(p.paymentChain);
    TextIsBlock("solslot-v2-rc23");
    SeedBinds(p, q);
    SameText(p.faucet, q.faucet);
    TextIsBlock(p.faucet);
    KitsBinds(p, q);
    SameMaybeNum(p.poolPuzzleVersion, q.poolPuzzleVersion);
    MaybeNumIsBlock(p.poolPuzzleVersion);
    ParametersBinds(p, q);
    Same8(ThirdPayloadValues(p), ThirdPayloadValues(q));
  }

  predicate SameFourthPayload(p: Payload, q: Payload)
    requires Shaped(p) && Shaped(q)
  {
    && p.retired == q.retired
    && p.governanceKey == q.governanceKey
    && SameDestinations(p, q)
    && SameValue(p.activation, q.activation)
    && p.kosKey == q.kosKey
    && p.authorityPuzzleVersion == q.authorityPuzzleVersion
    && SameBlock(p.derived.vaultParams, q.derived.vaultParams)
    && p.manifest == q.manifest
  }

  lemma FourthPayloadValuesBind(p: Payload, q: Payload)
    requires Shaped(p) && Shaped(q)
    ensures SameAll(FourthPayloadValues(p), FourthPayloadValues(q)) <==> SameFourthPayload(p, q)
    ensures AllBlocks(FourthPayloadValues(p))
  {
    hide TextJson, Texts, Numbers, List, TextAt, NumAt, MaybeNum, Norm, Proper, CleanValue, SameAll, DestinationsJson,
      SameDestinations;
    SameTexts(p.retired, q.retired);
    TextsAreBlock(p.retired);
    SameText(p.governanceKey, q.governanceKey);
    TextIsBlock(p.governanceKey);
    DestinationsBinds(p, q);
    SameText(p.kosKey, q.kosKey);
    TextIsBlock(p.kosKey);
    NumIsBlock(4);
    SameMaybeNum(p.authorityPuzzleVersion, q.authorityPuzzleVersion);
    MaybeNumIsBlock(p.authorityPuzzleVersion);
    SameText(p.manifest, q.manifest);
    TextIsBlock(p.manifest);
    Same9(FourthPayloadValues(p), FourthPayloadValues(q));
  }

  /** All fields agree; what other modules derive or check agrees up to the order of keys inside. */
  predicate SamePayload(p: Payload, q: Payload)
    requires Shaped(p) && Shaped(q)
  {
    SameFirstPayload(p, q) && SameSecondPayload(p, q) && SameThirdPayload(p, q) && SameFourthPayload(p, q)
  }

  lemma PayloadBinds(p: Payload, q: Payload)
    requires Shaped(p) && Shaped(q)
    ensures SameValue(Some(PayloadJson(p)), Some(PayloadJson(q))) <==> SamePayload(p, q)
    ensures Proper(PayloadJson(p)) && CleanValue(PayloadJson(p))
  {
    hide Fields, Norm, Proper, CleanValue, AllBlocks, Distinct, SameValue, FirstPayloadValues, SecondPayloadValues,
      ThirdPayloadValues, FourthPayloadValues, SameFirstPayload, SameSecondPayload, SameThirdPayload, SameFourthPayload;
    FirstPayloadValuesBind(p, q);
    SecondPayloadValuesBind(p, q);
    ThirdPayloadValuesBind(p, q);
    FourthPayloadValuesBind(p, q);
    FirstPayloadValuesBind(q, p);
    SecondPayloadValuesBind(q, p);
    ThirdPayloadValuesBind(q, p);
    FourthPayloadValuesBind(q, p);
    SameAllJoins(FirstPayloadValues(p), SecondPayloadValues(p),
                 FirstPayloadValues(q), SecondPayloadValues(q));
    AllBlocksJoin(FirstPayloadValues(p), SecondPayloadValues(p));
    AllBlocksJoin(FirstPayloadValues(q), SecondPayloadValues(q));
    SameAllJoins(FirstPayloadValues(p) + SecondPayloadValues(p), ThirdPayloadValues(p),
                 FirstPayloadValues(q) + SecondPayloadValues(q), ThirdPayloadValues(q));
    AllBlocksJoin(FirstPayloadValues(p) + SecondPayloadValues(p), ThirdPayloadValues(p));
    AllBlocksJoin(FirstPayloadValues(q) + SecondPayloadValues(q), ThirdPayloadValues(q));
    SameAllJoins(FirstPayloadValues(p) + SecondPayloadValues(p) + ThirdPayloadValues(p), FourthPayloadValues(p),
                 FirstPayloadValues(q) + SecondPayloadValues(q) + ThirdPayloadValues(q), FourthPayloadValues(q));
    AllBlocksJoin(FirstPayloadValues(p) + SecondPayloadValues(p) + ThirdPayloadValues(p), FourthPayloadValues(p));
    AllBlocksJoin(FirstPayloadValues(q) + SecondPayloadValues(q) + ThirdPayloadValues(q), FourthPayloadValues(q));
    PayloadKeysDiffer();
    FieldsAgree(PayloadKeys(), PayloadValues(p), PayloadValues(q));
    FieldsAreBlock(PayloadKeys(), PayloadValues(p));
    BlocksAgree(PayloadJson(p), PayloadJson(q));
  }
}
