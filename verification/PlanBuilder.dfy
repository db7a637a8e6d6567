/**
 The plan builder as a run of normalising loops and checks, against the specification of what it builds.
 */
module PlanBuilder {
  import opened Hashing
  import opened Results
  import opened Sequences
  import opened HexText
  import opened JsonFields
  import opened PlanJson
  import opened PlanPayload

  predicate SourcesFit(values: map<Name, string>) {
    values.Keys == SOURCE_NAMES && forall k :: k in values ==> GoodSource(Lower(values[k]))
  }

  /** Lower-cases the required commits, or refuses a commit that is missing, unwanted or malformed. */
  method NormalizeSourceShas(values: map<Name, string>) returns (r: Option<map<Name, string>>)
    ensures r.Some? <==> SourcesFit(values)
    ensures r.Some? ==> r.value == LowerAll(values)
  {
    hide Lower, ReadsAsInt, LowerAll, SOURCE_NAMES, SOURCE_ORDER, GoodSource;
    SourceOrderIsAll();
    LoweredAll(values);
    var wanted := {Protocol, Evm, Omnichain, Api, LegacyBackend, KeyOfSolomon, Samuel, CustomerWeb, AdminPortal};
    if values.Keys != wanted {
      return None;
    }
    var normalized: map<Name, string> := map[];
    for i := 0 to |SOURCE_ORDER|
      invariant normalized.Keys <= SOURCE_NAMES && forall j :: 0 <= j < i ==> SOURCE_ORDER[j] in normalized
      invariant forall k :: k in normalized ==> k in values && normalized[k] == Lower(values[k])
      invariant forall k :: k in normalized ==> GoodSource(normalized[k])
    {
      var name := SOURCE_ORDER[i];
      assert name in SOURCE_NAMES;
      var value := Lower(values[name]);
      GoodSourceMeans(value);
      if |value| != 40 || !ReadsAsInt(value) {
        return None;
      }
      normalized := normalized[name := value];
    }
    assert normalized == LowerAll(values);
    return Some(normalized);
  }

  lemma GoodSourceMeans(value: string)
    ensures GoodSource(value) <==> |value| == 40 && ReadsAsInt(value)
  {
  }

  lemma SourceOrderIsAll()
    ensures SOURCE_NAMES
         == {Protocol, Evm, Omnichain, Api, LegacyBackend, KeyOfSolomon, Samuel, CustomerWeb, AdminPortal}
    ensures forall m: map<Name, string> ::
              (forall j :: 0 <= j < |SOURCE_ORDER| ==> SOURCE_ORDER[j] in m) ==> SOURCE_NAMES <= m.Keys
    ensures forall j :: 0 <= j < |SOURCE_ORDER| ==> SOURCE_ORDER[j] in SOURCE_NAMES
  {
    var o := SOURCE_ORDER;
    assert o[0] == Api && o[1] == Evm && o[2] == Samuel && o[3] == Protocol && o[4] == Omnichain;
    assert o[5] == AdminPortal && o[6] == CustomerWeb && o[7] == KeyOfSolomon && o[8] == LegacyBackend;
  }

  predicate AddressesFit(values: map<Name, string>) {
    && values.Keys == ADDRESS_NAMES && (forall k :: k in values ==> GoodAddress(Lower(values[k])))
    && AddressesDiffer(LowerAll(values))
  }

  /** Lower-cases the required addresses, or refuses one that is missing, unwanted, malformed, zero or repeated. */
  method NormalizeEvmAddresses(values: map<Name, string>) returns (r: Option<map<Name, string>>)
    ensures r.Some? <==> AddressesFit(values)
    ensures r.Some? ==> r.value == LowerAll(values)
  {
    hide Lower, ReadsAsInt, Hex, LowerAll, AddressesDiffer, ADDRESS_NAMES, ADDRESS_ORDER;
    AddressOrderIsAll();
    LoweredAll(values);
    var wanted := {Forwarder, VerifierAdapter, AttestationEmitter};
    if values.Keys != wanted {
      return None;
    }
    var normalized: map<Name, string> := map[];
    for i := 0 to |ADDRESS_ORDER|
      invariant normalized.Keys == set j | 0 <= j < i :: ADDRESS_ORDER[j]
      invariant forall k :: k in normalized ==> k in values && normalized[k] == Lower(values[k])
      invariant forall k :: k in normalized ==> GoodAddress(normalized[k])
    {
      var name := ADDRESS_ORDER[i];
      assert name in ADDRESS_NAMES;
      var value := Lower(values[name]);
      if |value| != 42 || value[..2] != "0x" || !ReadsAsInt(value[2..]) || value == Hex(Zeros(20)) {
        return None;
      }
      normalized := normalized[name := value];
    }
    assert normalized == LowerAll(values);
    ThreeDiffer(values);
    var a, b, c := normalized[Forwarder], normalized[VerifierAdapter], normalized[AttestationEmitter];
    if a == b || a == c || b == c {
      return None;
    }
    return Some(normalized);
  }

  lemma AddressOrderIsAll()
    ensures ADDRESS_NAMES == {Forwarder, VerifierAdapter, AttestationEmitter}
    ensures (set j | 0 <= j < |ADDRESS_ORDER| :: ADDRESS_ORDER[j]) == ADDRESS_NAMES
    ensures forall j :: 0 <= j < |ADDRESS_ORDER| ==> ADDRESS_ORDER[j] in ADDRESS_NAMES
  {
    var o := ADDRESS_ORDER;
    assert o[0] == Forwarder && o[1] == VerifierAdapter && o[2] == AttestationEmitter;
  }

  lemma ThreeDiffer(m: map<Name, string>)
    requires m.Keys == ADDRESS_NAMES
    ensures AddressesDiffer(LowerAll(m)) <==>
              && Lower(m[Forwarder]) != Lower(m[VerifierAdapter])
              && Lower(m[Forwarder]) != Lower(m[AttestationEmitter])
              && Lower(m[VerifierAdapter]) != Lower(m[AttestationEmitter])
  {
    hide Lower;
    var l := LowerAll(m);
    assert l[Forwarder] == Lower(m[Forwarder]) && l[VerifierAdapter] == Lower(m[VerifierAdapter]);
    assert l[AttestationEmitter] == Lower(m[AttestationEmitter]);
  }

  /** One recovery kit, its guardian in lower case. */
  method ValidateKit(k: Kit) returns (ok: bool)
    ensures ok <==> GoodKit(k)
  {
    hide FromHex;
    if k.revision < 1 || |k.guardian| != 42 || k.guardian[..2] != "0x" {
      return false;
    }
    var guardian := FromHex(k.guardian[2..]);
    if guardian.None? || guardian.value == Zeros(20) {
      return false;
    }
    if |k.recoveryKey| != 48 || k.recoveryKey == Zeros(48) {
      return false;
    }
    return |k.drill| == 32 && k.drill != Zeros(32);
  }

  /** Every value has the length and is not zero. */
  method CheckNonzero(values: seq<Bytes>, length: nat) returns (ok: bool)
    ensures ok <==> AllNonzero(values, length)
  {
    for i := 0 to |values|
      invariant forall j :: 0 <= j < i ==> Nonzero(values[j], length)
    {
      if |values[i]| != length || values[i] == Zeros(length) {
        return false;
      }
    }
    return true;
  }

  predicate KitsFit(kits: seq<Kit>) {
    |kits| == 3 && (forall i :: 0 <= i < 3 ==> GoodKit(LowerKits(kits)[i])) && KitsDiffer(LowerKits(kits))
  }

  /** Three kits with their guardians in lower case, each sound and different from the others throughout. */
  method NormalizeKits(kits: seq<Kit>) returns (r: Option<seq<Kit>>)
    ensures r.Some? <==> KitsFit(kits)
    ensures r.Some? ==> r.value == LowerKits(kits)
  {
    hide Lower, GoodKit;
    if |kits| != 3 {
      return None;
    }
    var out: seq<Kit> := [];
    for i := 0 to 3
      invariant out == LowerKits(kits)[..i]
      invariant forall j :: 0 <= j < i ==> GoodKit(out[j])
    {
      var kit := Kit(kits[i].recoveryKey, Lower(kits[i].guardian), kits[i].revision, kits[i].drill);
      assert kit == LowerKits(kits)[i];
      var good := ValidateKit(kit);
      if !good {
        return None;
      }
      out := out + [kit];
    }
    assert out == LowerKits(kits);
    var a, b, c := out[0], out[1], out[2];
    if a.guardian == b.guardian || a.guardian == c.guardian || b.guardian == c.guardian {
      return None;
    }
    if a.drill == b.drill || a.drill == c.drill || b.drill == c.drill {
      return None;
    }
    if a.recoveryKey == b.recoveryKey || a.recoveryKey == c.recoveryKey || b.recoveryKey == c.recoveryKey {
      return None;
    }
    return Some(out);
  }

  /** Three different keys of one length. */
  method CheckThreeKeys(keys: seq<Bytes>, length: nat) returns (ok: bool)
    ensures ok <==> |keys| == 3 && (forall i :: 0 <= i < 3 ==> |keys[i]| == length) && Distinct(keys)
  {
    if |keys| != 3 || |keys[0]| != length || |keys[1]| != length || |keys[2]| != length {
      return false;
    }
    return keys[0] != keys[1] && keys[0] != keys[2] && keys[1] != keys[2];
  }

  predicate ScalarsFit(i: Inputs) {
    && i.network == "testnet11" && i.expiresAt > 0
    && i.versions.config >= 1 && i.versions.authority >= 1 && i.versions.vault == 2 && i.versions.registry == 0
    && i.seedVersion in {1, 2} && i.poolPuzzleVersion in {4, 5} && i.authorityPuzzleVersion in {3, 4}
    && |i.parameters| == 9
  }

  /** The scalar checks: network, expiry, versions of the singletons and of the puzzles. */
  method CheckScalars(i: Inputs) returns (ok: bool)
    ensures ok <==> ScalarsFit(i)
  {
    if i.network != "testnet11" || i.expiresAt <= 0 {
      return false;
    }
    if i.versions.config < 1 || i.versions.authority < 1 {
      return false;
    }
    if i.versions.vault != 2 || i.versions.registry != 0 {
      return false;
    }
    if (i.seedVersion != 1 && i.seedVersion != 2) || (i.poolPuzzleVersion != 4 && i.poolPuzzleVersion != 5) {
      return false;
    }
    return (i.authorityPuzzleVersion == 3 || i.authorityPuzzleVersion == 4) && |i.parameters| == 9;
  }

  predicate ValuesFit(i: Inputs, manifest: Bytes) {
    && Nonzero(i.ceremonyId, 32) && Nonzero(i.faucet, 32) && Nonzero(manifest, 32)
    && |i.funding| == 9 && AllNonzero(i.funding, 32) && Distinct(i.funding)
    && AllNonzero(i.retired, 32) && Distinct(i.retired)
    && |i.destinations| == 6 && AllNonzero(i.destinations, 32)
    && |i.adminKeys| == 3 && (forall k :: 0 <= k < 3 ==> |i.adminKeys[k]| == 33) && Distinct(i.adminKeys)
    && |i.validators| == 3 && (forall k :: 0 <= k < 3 ==> |i.validators[k]| == 48) && Distinct(i.validators)
    && |i.governanceKey| == 48 && Nonzero(i.kosKey, 48)
  }

  /** The checks on coin ids, hashes and keys. */
  method CheckValues(i: Inputs, manifest: Bytes) returns (ok: bool)
    ensures ok <==> ValuesFit(i, manifest)
  {
    hide Distinct, AllNonzero;
    var singles := CheckNonzero([i.ceremonyId, i.faucet, manifest], 32);
    ThreeNonzero(i.ceremonyId, i.faucet, manifest);
    var funding := CheckNonzero(i.funding, 32);
    var retired := CheckNonzero(i.retired, 32);
    var destinations := CheckNonzero(i.destinations, 32);
    if !singles || !funding || !retired || !destinations || |i.funding| != 9 || |i.destinations| != 6 {
      return false;
    }
    if !Distinct(i.funding) || !Distinct(i.retired) {
      return false;
    }
    if |i.governanceKey| != 48 || |i.kosKey| != 48 || i.kosKey == Zeros(48) {
      return false;
    }
    var admins := CheckThreeKeys(i.adminKeys, 33);
    var validators := CheckThreeKeys(i.validators, 48);
    return admins && validators;
  }

  lemma ThreeNonzero(a: Bytes, b: Bytes, c: Bytes)
    ensures AllNonzero([a, b, c], 32) <==> Nonzero(a, 32) && Nonzero(b, 32) && Nonzero(c, 32)
  {
    var s := [a, b, c];
    assert s[0] == a && s[1] == b && s[2] == c;
  }

  function ManifestOf(i: Inputs): Bytes {
    if i.manifest.None? then PINNED_MANIFEST else i.manifest.value
  }

  /** The specified checks on the normalised inputs, part by part. */
  lemma ChecksMean(i: Inputs)
    ensures Checks(Normalize(i)) <==>
              && ScalarsFit(i) && ValuesFit(i, ManifestOf(i)) && SourcesFit(i.sources) && AddressesFit(i.addresses)
              && KitsFit(i.kits)
  {
    hide AllNonzero, Distinct, GoodKit, KitsDiffer, GoodSource, GoodAddress, AddressesDiffer, Lower, LowerAll,
      LowerKits, Nonzero, SOURCE_NAMES, ADDRESS_NAMES;
    LoweredAll(i.sources);
    LoweredAll(i.addresses);
    LoweredKits(i.kits);
  }

  /** Builds exactly the specified plan, or refuses exactly the inputs that the specification refuses. */
  method BuildPlan(i: Inputs) returns (r: Option<Plan>)
    ensures r == Build(i)
  {
    hide ScalarsFit, ValuesFit, SourcesFit, AddressesFit, KitsFit, LowerAll, LowerKits, Checks;
    ChecksMean(i);
    var scalars := CheckScalars(i);
    if !scalars {
      return None;
    }
    var manifest := if i.manifest.None? then PINNED_MANIFEST else i.manifest.value;
    var values := CheckValues(i, manifest);
    if !values {
      return None;
    }
    var sources := NormalizeSourceShas(i.sources);
    if sources.None? {
      return None;
    }
    var addresses := NormalizeEvmAddresses(i.addresses);
    if addresses.None? {
      return None;
    }
    var kits := NormalizeKits(i.kits);
    if kits.None? {
      return None;
    }
    var n := i.(sources := sources.value, addresses := addresses.value, kits := kits.value,
                manifest := Some(manifest));
    if DERIVE(n).None? {
      return None;
    }
    return Some(Plan(n, DERIVE(n).value));
  }

  lemma LoweredAll(m: map<Name, string>)
    ensures LowerAll(m).Keys == m.Keys && forall k :: k in m ==> LowerAll(m)[k] == Lower(m[k])
  {
    hide Lower;
  }

  lemma LoweredKits(ks: seq<Kit>)
    ensures |LowerKits(ks)| == |ks|
  {
  }
}
