/**
 The canonical payload of a ceremony plan, and the plan rebuilt from it.

 What is derived from the inputs by other modules (launcher ids, puzzle hashes, roots), and the checks made on the way,
 are one open function of the normalised inputs.
 */
module PlanPayload {
  import opened Hashing
  import opened Results
  import opened Sequences
  import opened HexText
  import Json
  import opened JsonFields
  import opened PlanJson
  import opened PlanJsonProofs
  import opened Statements

  datatype Kit = Kit(recoveryKey: Bytes, guardian: string, revision: int, drill: Bytes)

  /** `destinations`: the three treasuries, the wUSDC asset, the rewards puzzle and the rewards root. */
  datatype Inputs = Inputs(
    ceremonyId: Bytes, expiresAt: int,
    sources: map<Name, string>, addresses: map<Name, string>,
    funding: seq<Bytes>, faucet: Bytes, governanceKey: Bytes, kosKey: Bytes,
    adminKeys: seq<Bytes>, kits: seq<Kit>, validators: seq<Bytes>,
    destinations: seq<Bytes>, retired: seq<Bytes>,
    manifest: Option<Bytes>,
    parameters: seq<int>, network: string, evmChainId: int, versions: Versions,
    activation: Option<Block>, paymentChain: Option<int>, identityPolicy: Option<Block>,
    seedVersion: int, poolPuzzleVersion: int, authorityPuzzleVersion: int)

  /** Everything the plan holds beyond its inputs, or a refusal. */
  const DERIVE: Inputs -> Option<Derived>
  /** The hash of the reviewed recovery dependencies. */
  const PINNED_MANIFEST: Bytes32

  datatype Plan = Plan(inputs: Inputs, derived: Derived)

  // ---------------------------------------------------------------- building

  function LowerAll(m: map<Name, string>): map<Name, string> {
    map k | k in m :: Lower(m[k])
  }

  function LowerKit(k: Kit): Kit {
    k.(guardian := Lower(k.guardian))
  }

  function LowerKits(ks: seq<Kit>): seq<Kit> {
    seq(|ks|, i requires 0 <= i < |ks| => LowerKit(ks[i]))
  }

  function Normalize(i: Inputs): Inputs {
    i.(sources := LowerAll(i.sources), addresses := LowerAll(i.addresses), kits := LowerKits(i.kits),
       manifest := Some(if i.manifest.Some? then i.manifest.value else PINNED_MANIFEST))
  }

  predicate Nonzero(b: Bytes, length: nat) {
    |b| == length && b != Zeros(length)
  }

  predicate AllNonzero(bs: seq<Bytes>, length: nat) {
    forall i :: 0 <= i < |bs| ==> Nonzero(bs[i], length)
  }

  predicate GoodSource(s: string) {
    |s| == 40 && ReadsAsInt(s)
  }

  predicate GoodAddress(s: string) {
    |s| == 42 && s[..2] == "0x" && ReadsAsInt(s[2..]) && s != Hex(Zeros(20))
  }

  /** The builder reads a guardian with `fromhex`, which skips blanks; nothing else is said of its length in bytes. */
  predicate GoodKit(k: Kit) {
    && Nonzero(k.recoveryKey, 48) && Nonzero(k.drill, 32) && k.revision >= 1
    && |k.guardian| == 42 && k.guardian[..2] == "0x"
    && FromHex(k.guardian[2..]).Some? && FromHex(k.guardian[2..]).value != Zeros(20)
  }

  predicate KitsDiffer(ks: seq<Kit>) {
    forall i, j :: 0 <= i < j < |ks| ==>
      ks[i].recoveryKey != ks[j].recoveryKey && ks[i].guardian != ks[j].guardian && ks[i].drill != ks[j].drill
  }

  predicate AddressesDiffer(m: map<Name, string>) {
    forall k, l :: k in m && l in m && k != l ==> m[k] != m[l]
  }

  /** The builder's own checks, on normalised inputs. */
  predicate Checks(n: Inputs) {
    && n.network == "testnet11" && n.expiresAt > 0
    && Nonzero(n.ceremonyId, 32) && Nonzero(n.faucet, 32)
    && |n.funding| == 9 && AllNonzero(n.funding, 32) && Distinct(n.funding)
    && n.sources.Keys == SOURCE_NAMES && (forall k :: k in n.sources ==> GoodSource(n.sources[k]))
    && n.manifest.Some? && Nonzero(n.manifest.value, 32)
    && n.addresses.Keys == ADDRESS_NAMES && (forall k :: k in n.addresses ==> GoodAddress(n.addresses[k]))
    && AddressesDiffer(n.addresses)
    && n.versions.config >= 1 && n.versions.authority >= 1 && n.versions.vault == 2 && n.versions.registry == 0
    && AllNonzero(n.retired, 32) && Distinct(n.retired)
    && |n.adminKeys| == 3 && (forall i :: 0 <= i < 3 ==> |n.adminKeys[i]| == 33) && Distinct(n.adminKeys)
    && |n.kits| == 3 && (forall i :: 0 <= i < 3 ==> GoodKit(n.kits[i])) && KitsDiffer(n.kits)
    && |n.validators| == 3 && (forall i :: 0 <= i < 3 ==> |n.validators[i]| == 48) && Distinct(n.validators)
    && |n.governanceKey| == 48 && Nonzero(n.kosKey, 48)
    && |n.destinations| == 6 && AllNonzero(n.destinations, 32)
    && n.seedVersion in {1, 2} && n.poolPuzzleVersion in {4, 5} && n.authorityPuzzleVersion in {3, 4}
    && |n.parameters| == 9
  }

  function Build(i: Inputs): Option<Plan> {
    var n := Normalize(i);
    if !Checks(n) then None
    else
      match DERIVE(n)
      case None => None
      case Some(d) => Some(Plan(n, d))
  }

  // ---------------------------------------------------------------- the payload

  function HexAll(bs: seq<Bytes>): seq<string> {
    seq(|bs|, i requires 0 <= i < |bs| => Hex(bs[i]))
  }

  function KitTexts(ks: seq<Kit>): seq<KitText> {
    seq(|ks|, i requires 0 <= i < |ks| =>
      KitText(Hex(ks[i].recoveryKey), Lower(ks[i].guardian), ks[i].revision, Hex(ks[i].drill)))
  }

  function Unless(v: int, default: int): Option<int> {
    if v != default then Some(v) else None
  }

  function OrElse(v: Option<int>, default: int): int {
    if v.Some? then v.value else default
  }

  function PayloadOf(p: Plan): Payload
    requires p.inputs.manifest.Some?
  {
    Unhashed(p).(planHash := Some(Hex(PlanHash(p))))
  }

  function Unhashed(p: Plan): Payload
    requires p.inputs.manifest.Some?
  {
    var n := p.inputs;
    Payload(Hex(n.ceremonyId), n.expiresAt, n.sources, n.addresses,
            HexAll(n.funding), Hex(n.faucet), Hex(n.governanceKey), Hex(n.kosKey),
            HexAll(n.adminKeys), KitTexts(n.kits), HexAll(n.validators),
            HexAll(n.destinations), HexAll(n.retired), Hex(n.manifest.value),
            n.parameters, n.network, n.evmChainId, n.versions,
            n.activation, n.paymentChain, n.identityPolicy,
            Unless(n.seedVersion, 1), Unless(n.poolPuzzleVersion, 4), Unless(n.authorityPuzzleVersion, 3),
            p.derived, None)
  }

  function PlanHash(p: Plan): Bytes32
    requires p.inputs.manifest.Some?
  {
    Sha256(Json.Print(PayloadJson(Unhashed(p))))
  }

  // ---------------------------------------------------------------- rebuilding

  function ParseAll(ss: seq<string>, length: nat): Option<seq<Bytes>> {
    if ss == [] then Some([])
    else
      var first, rest := ParseBytes(ss[0], length), ParseAll(ss[1..], length);
      if first.Some? && rest.Some? then Some([first.value] + rest.value) else None
  }

  function ParseKits(ks: seq<KitText>): Option<seq<Kit>> {
    if ks == [] then Some([])
    else
      var k := ks[0];
      var key, guardian, drill := ParseBytes(k.recoveryKey, 48), HexValue(k.guardian, 20), ParseBytes(k.drill, 32);
      var rest := ParseKits(ks[1..]);
      if key.Some? && guardian.Some? && drill.Some? && rest.Some? then
        Some([Kit(key.value, guardian.value, k.revision, drill.value)] + rest.value)
      else None
  }

  /** Lower-cases the commit of every required source. */
  function ReadSources(m: map<Name, string>): Option<map<Name, string>> {
    if SOURCE_NAMES <= m.Keys && forall k :: k in SOURCE_NAMES ==> GoodSource(Lower(m[k])) then
      Some(map k | k in SOURCE_NAMES :: Lower(m[k]))
    else None
  }

  function ReadAddresses(m: map<Name, string>): Option<map<Name, string>> {
    if ADDRESS_NAMES <= m.Keys && forall k :: k in ADDRESS_NAMES ==> HexValue(m[k], 20).Some? then
      Some(map k | k in ADDRESS_NAMES :: HexValue(m[k], 20).value)
    else None
  }

  datatype Keys = Keys(governance: Bytes, kos: Bytes, admins: seq<Bytes>, kits: seq<Kit>, validators: seq<Bytes>)
  datatype Ids = Ids(ceremonyId: Bytes, funding: seq<Bytes>, faucet: Bytes, destinations: seq<Bytes>,
      retired: seq<Bytes>)

  function ReadKeys(p: Payload): Option<Keys> {
    var governance, kos := ParseBytes(p.governanceKey, 48), ParseBytes(p.kosKey, 48);
    var admins, kits, validators := ParseAll(p.adminKeys, 33), ParseKits(p.kits), ParseAll(p.validators, 48);
    if governance.Some? && kos.Some? && admins.Some? && kits.Some? && validators.Some? then
      Some(Keys(governance.value, kos.value, admins.value, kits.value, validators.value))
    else None
  }

  function ReadIds(p: Payload): Option<Ids> {
    var ceremony, faucet := ParseBytes(p.ceremonyId, 32), ParseBytes(p.faucet, 32);
    var funding, destinations, retired := ParseAll(p.funding, 32), ParseAll(p.destinations, 32),
        ParseAll(p.retired, 32);
    if ceremony.Some? && faucet.Some? && funding.Some? && destinations.Some? && retired.Some? then
      Some(Ids(ceremony.value, funding.value, faucet.value, destinations.value, retired.value))
    else None
  }

  /** The builder's inputs as the payload gives them; the manifest is not among them. */
  function ReadInputs(p: Payload): Option<Inputs> {
    var keys, ids, sources, addresses := ReadKeys(p), ReadIds(p), ReadSources(p.sources), ReadAddresses(p.addresses);
    if keys.Some? && ids.Some? && sources.Some? && addresses.Some? && |p.kits| == 3 then
      Some(Inputs(ids.value.ceremonyId, p.expiresAt, sources.value, addresses.value,
                  ids.value.funding, ids.value.faucet, keys.value.governance, keys.value.kos,
                  keys.value.admins, keys.value.kits, keys.value.validators,
                  ids.value.destinations, ids.value.retired, None,
                  p.parameters, p.network, p.evmChainId, p.versions,
                  p.activation, p.paymentChain, p.identityPolicy,
                  OrElse(p.seedVersion, 1), OrElse(p.poolPuzzleVersion, 4), OrElse(p.authorityPuzzleVersion, 3)))
    else None
  }

  function Rebuild(p: Payload): Option<Plan> {
    match ReadInputs(p)
    case None => None
    case Some(i) => Build(i)
  }

  /** An artifact's plan is accepted when rebuilding it gives the same payload. */
  predicate Reconstructs(p: Payload) {
    match Rebuild(p)
    case None => false
    case Some(plan) => plan.inputs.manifest.Some? && PayloadOf(plan) == p
  }

  // ---------------------------------------------------------------- reading back what was written

  lemma {:induction false} ParseAllOfHex(bs: seq<Bytes>, length: nat)
    requires length > 0 && forall i :: 0 <= i < |bs| ==> |bs[i]| == length
    ensures ParseAll(HexAll(bs), length) == if AllNonzero(bs, length) then Some(bs) else None
  {
    hide ParseBytes, Hex;
    if bs != [] {
      ParseAllOfHex(bs[1..], length);
      HexTextRoundTrip(bs[0]);
      assert HexAll(bs)[1..] == HexAll(bs[1..]);
      assert bs == [bs[0]] + bs[1..];
      assert AllNonzero(bs, length) <==> Nonzero(bs[0], length) && AllNonzero(bs[1..], length);
    }
  }

  predicate GuardiansRead(ks: seq<Kit>) {
    forall i :: 0 <= i < |ks| && |ks[i].guardian| >= 2 ==> ReadsAsInt(ks[i].guardian[2..])
  }

  lemma GuardianRead(k: Kit)
    requires GoodKit(k) && Lower(k.guardian) == k.guardian
    ensures HexValue(Lower(k.guardian), 20) == if ReadsAsInt(k.guardian[2..]) then Some(k.guardian) else None
  {
    hide ReadsAsInt, FromHex, Digits, Lower;
    DigitsRoundTrip(Zeros(20));
    assert Hex(Zeros(20))[2..] == Digits(Zeros(20));
    HexValueOfLower(k.guardian, 20);
  }

  lemma {:induction false} ParseKitsOfTexts(ks: seq<Kit>)
    requires forall i :: 0 <= i < |ks| ==> GoodKit(ks[i]) && Lower(ks[i].guardian) == ks[i].guardian
    ensures ParseKits(KitTexts(ks)) == if GuardiansRead(ks) then Some(ks) else None
  {
    hide ParseBytes, Hex, HexValue, Lower, ReadsAsInt, FromHex;
    if ks != [] {
      ParseKitsOfTexts(ks[1..]);
      HexTextRoundTrip(ks[0].recoveryKey);
      HexTextRoundTrip(ks[0].drill);
      GuardianRead(ks[0]);
      assert KitTexts(ks)[1..] == KitTexts(ks[1..]);
      assert ks == [ks[0]] + ks[1..];
      assert GuardiansRead(ks) <==> ReadsAsInt(ks[0].guardian[2..]) && GuardiansRead(ks[1..]);
    }
  }

  predicate IsNormal(n: Inputs) {
    Normalize(n) == n && Checks(n)
  }

  lemma NormalizeTwice(i: Inputs)
    ensures Normalize(Normalize(i)) == Normalize(i)
  {
    hide Lower;
    forall s: string
      ensures Lower(Lower(s)) == Lower(s)
    {
      LowerTwice(s);
    }
    var n := Normalize(i);
    assert LowerKits(n.kits) == n.kits;
    assert LowerAll(n.sources) == n.sources && LowerAll(n.addresses) == n.addresses;
  }

  lemma ReadSourcesOfNormal(n: Inputs)
    requires IsNormal(n)
    ensures ReadSources(n.sources) == Some(n.sources)
  {
    hide Lower, GoodSource, GoodAddress, GoodKit, KitsDiffer, Nonzero;
    assert LowerAll(n.sources) == n.sources;
    forall k | k in SOURCE_NAMES
      ensures Lower(n.sources[k]) == n.sources[k]
    {
      assert n.sources[k] == LowerAll(n.sources)[k];
    }
  }

  lemma ReadAddressesOfNormal(n: Inputs)
    requires IsNormal(n)
    ensures ReadAddresses(n.addresses) == Some(n.addresses)
  {
    hide Lower, GoodSource, GoodKit, KitsDiffer, Nonzero, ReadsAsInt, Hex, HexValue;
    assert LowerAll(n.addresses) == n.addresses;
    forall k | k in ADDRESS_NAMES
      ensures HexValue(n.addresses[k], 20) == Some(n.addresses[k])
    {
      assert n.addresses[k] == LowerAll(n.addresses)[k];
      assert GoodAddress(n.addresses[k]);
      HexValueOfLower(n.addresses[k], 20);
    }
    assert (map k | k in ADDRESS_NAMES :: HexValue(n.addresses[k], 20).value) == n.addresses;
  }

  /** What a rebuild refuses although the builder does not: zero keys, and guardians with blanks inside. */
  predicate Readable(n: Inputs) {
    && n.governanceKey != Zeros(48)
    && AllNonzero(n.adminKeys, 33)
    && AllNonzero(n.validators, 48)
    && GuardiansRead(n.kits)
  }

  lemma ReadKeysOfPlan(p: Plan)
    requires IsNormal(p.inputs)
    ensures ReadKeys(PayloadOf(p)) == if Readable(p.inputs) then
              Some(Keys(p.inputs.governanceKey, p.inputs.kosKey, p.inputs.adminKeys, p.inputs.kits,
                p.inputs.validators))
            else None
  {
    hide ParseBytes, Hex, ParseAll, ParseKits, HexAll, KitTexts, GoodSource, GoodAddress, GoodKit, KitsDiffer,
      AllNonzero, GuardiansRead, PlanHash, Distinct, Lower, SOURCE_NAMES, ADDRESS_NAMES;
    var n := p.inputs;
    HexTextRoundTrip(n.governanceKey);
    HexTextRoundTrip(n.kosKey);
    ParseAllOfHex(n.adminKeys, 33);
    ParseAllOfHex(n.validators, 48);
    KitsAreLower(n);
    ParseKitsOfTexts(n.kits);
  }

  lemma KitsAreLower(n: Inputs)
    requires IsNormal(n)
    ensures forall i :: 0 <= i < |n.kits| ==> Lower(n.kits[i].guardian) == n.kits[i].guardian && GoodKit(n.kits[i])
  {
    hide Lower, GoodKit, GoodSource, GoodAddress, Nonzero, AllNonzero, Distinct, SOURCE_NAMES, ADDRESS_NAMES;
    assert LowerKits(n.kits) == n.kits;
    forall i | 0 <= i < |n.kits|
      ensures Lower(n.kits[i].guardian) == n.kits[i].guardian
    {
      assert LowerKits(n.kits)[i] == LowerKit(n.kits[i]);
    }
  }

  lemma ReadIdsOfPlan(p: Plan)
    requires IsNormal(p.inputs)
    ensures ReadIds(PayloadOf(p))
         == Some(Ids(p.inputs.ceremonyId, p.inputs.funding, p.inputs.faucet, p.inputs.destinations, p.inputs.retired))
  {
    hide ParseBytes, Hex, ParseAll, HexAll, KitTexts, GoodSource, GoodAddress, GoodKit, KitsDiffer, PlanHash,
      Distinct, Lower, SOURCE_NAMES, ADDRESS_NAMES;
    var n := p.inputs;
    HexTextRoundTrip(n.ceremonyId);
    HexTextRoundTrip(n.faucet);
    ParseAllOfHex(n.funding, 32);
    ParseAllOfHex(n.destinations, 32);
    ParseAllOfHex(n.retired, 32);
  }

  /** The payload gives the normalised inputs back, without the manifest, exactly when they are readable. */
  lemma ReadInputsOfPlan(p: Plan)
    requires IsNormal(p.inputs)
    ensures ReadInputs(PayloadOf(p)) == if Readable(p.inputs) then Some(p.inputs.(manifest := None)) else None
  {
    hide ReadKeys, ReadIds, ReadSources, ReadAddresses, Readable, HexAll, KitTexts, Hex, PlanHash, GoodSource,
      GoodAddress, GoodKit, KitsDiffer, Distinct, AllNonzero, Nonzero, LowerAll, LowerKits, SOURCE_NAMES, ADDRESS_NAMES;
    var n := p.inputs;
    ReadKeysOfPlan(p);
    ReadIdsOfPlan(p);
    ReadSourcesOfNormal(n);
    ReadAddressesOfNormal(n);
    assert |PayloadOf(p).kits| == 3 by { KitTextsLength(n.kits); }
  }

  lemma KitTextsLength(ks: seq<Kit>)
    ensures |KitTexts(ks)| == |ks|
  {
  }

  lemma BuiltIsNormal(i: Inputs, p: Plan)
    requires Build(i) == Some(p)
    ensures IsNormal(p.inputs) && DERIVE(p.inputs) == Some(p.derived)
  {
    hide Normalize, Checks;
    NormalizeTwice(i);
  }

  /**
   A built plan is rebuilt from its own payload, and with it the payload and the plan hash, exactly when it has the
   pinned manifest, no zero key, and no guardian with blanks inside.
   */
  lemma RebuildIff(i: Inputs, p: Plan)
    requires Build(i) == Some(p)
    ensures p.inputs.manifest.Some?
    ensures Rebuild(PayloadOf(p)) == Some(p) <==> p.inputs.manifest == Some(PINNED_MANIFEST) && Readable(p.inputs)
    ensures Reconstructs(PayloadOf(p)) <==> Rebuild(PayloadOf(p)) == Some(p)
  {
    hide Checks, Readable, ReadInputs, LowerAll, LowerKits, Unhashed, PlanHash;
    BuiltIsNormal(i, p);
    ReadInputsOfPlan(p);
    var n := p.inputs;
    NormalHasManifest(n);
    if Readable(n) {
      WithPinned(n);
      if Reconstructs(PayloadOf(p)) {
        SamePayloadSameManifest(Rebuild(PayloadOf(p)).value, p);
      }
    }
  }

  lemma NormalHasManifest(n: Inputs)
    requires IsNormal(n)
    ensures n.manifest.Some? && |n.manifest.value| == 32
  {
  }

  lemma WithPinned(n: Inputs)
    requires IsNormal(n)
    ensures Normalize(n.(manifest := None)) == n.(manifest := Some(PINNED_MANIFEST))
  {
    hide LowerAll, LowerKits, Checks;
  }

  /** The manifest is part of the payload. */
  lemma SamePayloadSameManifest(p: Plan, q: Plan)
    requires p.inputs.manifest.Some? && q.inputs.manifest.Some? && PayloadOf(p) == PayloadOf(q)
    ensures p.inputs.manifest == q.inputs.manifest
  {
    hide HexAll, KitTexts, Digits, PlanHash;
    var a, b := p.inputs.manifest.value, q.inputs.manifest.value;
    assert Hex(a) == Hex(b);
    assert Hex(a)[2..] == Digits(a) && Hex(b)[2..] == Digits(b);
    DigitsRoundTrip(a);
    DigitsRoundTrip(b);
  }

  /** The payloads accepted in artifacts are those of the built plans with the pinned manifest and readable inputs. */
  lemma ReconstructingPayloadsAreBuilt(p: Payload)
    ensures Reconstructs(p) <==>
              exists i, plan :: Build(i) == Some(plan) && plan.inputs.manifest == Some(PINNED_MANIFEST)
                && Readable(plan.inputs) && PayloadOf(plan) == p
  {
    hide Build, ReadInputs, Readable, Unhashed, PlanHash, PayloadOf;
    if Reconstructs(p) {
      var i, plan := ReadInputs(p).value, Rebuild(p).value;
      RebuildIff(i, plan);
    }
    forall i, plan | Build(i) == Some(plan) && plan.inputs.manifest == Some(PINNED_MANIFEST)
        && Readable(plan.inputs) && PayloadOf(plan) == p
      ensures Reconstructs(p)
    {
      RebuildIff(i, plan);
    }
  }

  /** Such a payload stands for one plan. */
  lemma PayloadIsUnambiguous(i: Inputs, p: Plan, j: Inputs, q: Plan)
    requires Build(i) == Some(p) && Build(j) == Some(q)
    requires p.inputs.manifest == q.inputs.manifest == Some(PINNED_MANIFEST) && Readable(p.inputs) && Readable(q.inputs)
    requires PayloadOf(p) == PayloadOf(q)
    ensures p == q
  {
    hide Build, ReadInputs, Readable, Unhashed, PlanHash, PayloadOf;
    RebuildIff(i, p);
    RebuildIff(j, q);
  }

  // ---------------------------------------------------------------- what the plan hash binds

  lemma HexInjective(a: Bytes, b: Bytes)
    ensures Hex(a) == Hex(b) <==> a == b
  {
    if Hex(a) == Hex(b) {
      assert Hex(a)[2..] == Digits(a) && Hex(b)[2..] == Digits(b);
      DigitsRoundTrip(a);
      DigitsRoundTrip(b);
    }
  }

  lemma HexAllInjective(a: seq<Bytes>, b: seq<Bytes>)
    ensures HexAll(a) == HexAll(b) <==> a == b
  {
    hide Hex;
    if HexAll(a) == HexAll(b) {
      assert |a| == |HexAll(a)| == |b|;
      forall i | 0 <= i < |a|
        ensures a[i] == b[i]
      {
        assert HexAll(a)[i] == Hex(a[i]) && HexAll(b)[i] == Hex(b[i]);
        HexInjective(a[i], b[i]);
      }
    }
  }

  lemma KitTextsInjective(a: seq<Kit>, b: seq<Kit>)
    requires forall i :: 0 <= i < |a| ==> Lower(a[i].guardian) == a[i].guardian
    requires forall i :: 0 <= i < |b| ==> Lower(b[i].guardian) == b[i].guardian
    ensures KitTexts(a) == KitTexts(b) <==> a == b
  {
    hide Hex, Lower;
    if KitTexts(a) == KitTexts(b) {
      assert |a| == |KitTexts(a)| == |b|;
      forall i | 0 <= i < |a|
        ensures a[i] == b[i]
      {
        assert KitTexts(a)[i] == KitTexts(b)[i];
        HexInjective(a[i].recoveryKey, b[i].recoveryKey);
        HexInjective(a[i].drill, b[i].drill);
      }
    }
  }

  lemma NamesBindMap(order: seq<Name>, names: set<Name>, m: map<Name, string>, n: map<Name, string>)
    requires m.Keys == n.Keys == names && forall k :: k in names ==> k in order
    ensures SameNames(order, m, n) <==> m == n
  {
    if SameNames(order, m, n) {
      forall k | k in names
        ensures m[k] == n[k]
      {
        var i :| 0 <= i < |order| && order[i] == k;
      }
    }
  }

  lemma OrdersAreComplete()
    ensures forall k :: k in SOURCE_NAMES ==> k in SOURCE_ORDER
    ensures forall k :: k in ADDRESS_NAMES ==> k in ADDRESS_ORDER
  {
    var s, a := SOURCE_ORDER, ADDRESS_ORDER;
    assert s[0] == Api && s[1] == Evm && s[2] == Samuel && s[3] == Protocol && s[4] == Omnichain;
    assert s[5] == AdminPortal && s[6] == CustomerWeb && s[7] == KeyOfSolomon && s[8] == LegacyBackend;
    assert a[0] == Forwarder && a[1] == VerifierAdapter && a[2] == AttestationEmitter;
  }

  /** One plan, up to the order of keys in the blocks that other modules check. */
  predicate SamePlan(p: Plan, q: Plan) {
    && p.inputs.(activation := None, identityPolicy := None) == q.inputs.(activation := None, identityPolicy := None)
    && SameValue(p.inputs.activation, q.inputs.activation)
    && SameValue(p.inputs.identityPolicy, q.inputs.identityPolicy)
    && SameDerived(p.derived, q.derived)
  }

  predicate SameDerived(d: Derived, e: Derived) {
    && SameBlock(d.launcherIds, e.launcherIds) && SameBlock(d.puzzleHashes, e.puzzleHashes)
    && SameBlock(d.permanentRules, e.permanentRules) && SameBlock(d.bridgeBatch, e.bridgeBatch)
    && SameBlock(d.vaultParams, e.vaultParams) && SameBlock(d.seedPuzzleHash, e.seedPuzzleHash)
    && SameBlock(d.seedCoinId, e.seedCoinId) && SameBlock(d.totalSupply, e.totalSupply)
    && SameBlock(d.statutesVersion, e.statutesVersion) && SameBlock(d.statutesContent, e.statutesContent)
    && SameBlock(d.statutesRoots, e.statutesRoots) && SameBlock(d.poolVersion, e.poolVersion)
    && SameBlock(d.poolCommitment, e.poolCommitment) && SameBlock(d.sourceManifest, e.sourceManifest)
    && SameBlock(d.operationalRoot, e.operationalRoot) && SameBlock(d.lostRoots, e.lostRoots)
    && SameBlock(d.identityVaults, e.identityVaults) && SameBlock(d.adminsHash, e.adminsHash)
    && SameBlock(d.commitment0, e.commitment0) && SameBlock(d.commitment1, e.commitment1)
    && SameBlock(d.commitment2, e.commitment2)
  }

  lemma PlanIsShaped(p: Plan)
    requires IsNormal(p.inputs)
    ensures p.inputs.manifest.Some? && Shaped(Unhashed(p))
  {
    hide GoodKit, GoodSource, GoodAddress, Nonzero, AllNonzero, Distinct, SOURCE_NAMES, ADDRESS_NAMES;
  }

  /** The payloads of two plans are the same exactly when the plans are. */
  lemma UnhashedBinds(p: Plan, q: Plan)
    requires IsNormal(p.inputs) && IsNormal(q.inputs)
    ensures Shaped(Unhashed(p)) && Shaped(Unhashed(q))
    ensures SamePayload(Unhashed(p), Unhashed(q)) <==> SamePlan(p, q)
  {
    hide Normalize, Checks, Hex, HexAll, KitTexts, SameNames, SameValue, SameBlock, SOURCE_NAMES, ADDRESS_NAMES,
      SOURCE_ORDER, ADDRESS_ORDER, Lower;
    var n, m := p.inputs, q.inputs;
    PlanIsShaped(p);
    PlanIsShaped(q);
    NormalFacts(n);
    NormalFacts(m);
    OrdersAreComplete();
    NamesBindMap(SOURCE_ORDER, SOURCE_NAMES, n.sources, m.sources);
    NamesBindMap(ADDRESS_ORDER, ADDRESS_NAMES, n.addresses, m.addresses);
    HexInjective(n.ceremonyId, m.ceremonyId);
    HexInjective(n.faucet, m.faucet);
    HexInjective(n.governanceKey, m.governanceKey);
    HexInjective(n.kosKey, m.kosKey);
    HexInjective(n.manifest.value, m.manifest.value);
    HexAllInjective(n.funding, m.funding);
    HexAllInjective(n.adminKeys, m.adminKeys);
    HexAllInjective(n.validators, m.validators);
    HexAllInjective(n.destinations, m.destinations);
    HexAllInjective(n.retired, m.retired);
    KitTextsInjective(n.kits, m.kits);
  }

  lemma NormalFacts(n: Inputs)
    requires IsNormal(n)
    ensures n.sources.Keys == SOURCE_NAMES && n.addresses.Keys == ADDRESS_NAMES && n.manifest.Some?
    ensures forall i :: 0 <= i < |n.kits| ==> Lower(n.kits[i].guardian) == n.kits[i].guardian
  {
    hide Lower, GoodKit, GoodSource, GoodAddress, Nonzero, AllNonzero, Distinct;
    KitsAreLower(n);
  }

  /** Built plans have one plan hash exactly when they are one plan, or the texts of their payloads collide. */
  lemma PlanHashBinds(i: Inputs, p: Plan, j: Inputs, q: Plan)
    requires Build(i) == Some(p) && Build(j) == Some(q)
    ensures p.inputs.manifest.Some? && q.inputs.manifest.Some?
    ensures PlanHash(p) == PlanHash(q) <==>
              SamePlan(p, q) || Clash(Json.Print(PayloadJson(Unhashed(p))), Json.Print(PayloadJson(Unhashed(q))))
  {
    hide Build, Unhashed, PayloadJson, SamePlan, SamePayload, SameValue, Shaped, IsNormal, Json.Print, Json.Norm,
      Json.Proper, Json.CleanValue;
    BuiltIsNormal(i, p);
    BuiltIsNormal(j, q);
    NormalHasManifest(p.inputs);
    NormalHasManifest(q.inputs);
    UnhashedBinds(p, q);
    PayloadBinds(Unhashed(p), Unhashed(q));
    PayloadBinds(Unhashed(q), Unhashed(p));
    BlocksAgree(PayloadJson(Unhashed(p)), PayloadJson(Unhashed(q)));
    StatementHashBinds(PayloadJson(Unhashed(p)), PayloadJson(Unhashed(q)));
  }

  /** A guardian of nineteen bytes, written with blanks, passes the builder's check of a twenty-byte address. */
  lemma BlankGuardianIsBuiltNotRead(k: Kit)
    requires Nonzero(k.recoveryKey, 48) && Nonzero(k.drill, 32) && k.revision >= 1
    ensures var blank := k.(guardian := "0x" + ("11" + (" " + (" " + Ones(18)))));
      GoodKit(blank) && LowerKit(blank) == blank && !GuardiansRead([blank])
  {
    hide FromHex, ReadsAsInt, Ones, Lower;
    BlanksInside();
    var g := "11" + (" " + (" " + Ones(18)));
    var blank := k.(guardian := "0x" + g);
    assert blank.guardian[2..] == g && blank.guardian[..2] == "0x";
    LowerPrefixed(g);
    assert |[blank][0].guardian| >= 2;
  }

  lemma LowerPrefixed(g: string)
    requires Lower(g) == g
    ensures Lower("0x" + g) == "0x" + g
  {
    var s := "0x" + g;
    forall i | 0 <= i < |s|
      ensures LowerChar(s[i]) == s[i]
    {
      assert i >= 2 ==> s[i] == g[i - 2] && Lower(g)[i - 2] == LowerChar(g[i - 2]);
    }
  }
}
