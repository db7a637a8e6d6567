/**
 Which field of the plan stands under which key of its payload.
 */
module PlanLookup {
  import opened Results
  import opened Sequences
  import opened Hashing
  import HexText
  import opened Json
  import opened JsonFields
  import opened PlanJson
  import opened PlanJsonProofs
  import opened PlanPayload

  /** What an object has under a key. */
  function At(v: Json, key: string): Option<Json> {
    if v.Obj? then Lookup(v.members, Chars(key)) else None
  }

  lemma FieldsAt(keys: seq<string>, vs: seq<Option<Json>>)
    requires |keys| == |vs| && Distinct(keys)
    ensures forall i :: 0 <= i < |keys| ==> At(Obj(Fields(keys, vs)), keys[i]) == vs[i]
  {
    FieldsAre(keys, vs);
  }

  /** The keys of the reserve seed. */
  lemma SeedAt(p: Payload)
    ensures At(SeedJson(p), "amount") == Some(Num(1))
    ensures At(SeedJson(p), "coinId") == Some(p.derived.seedCoinId)
    ensures At(SeedJson(p), "purpose") == Some(TextJson("permanent-cat-lineage-anchor"))
    ensures At(SeedJson(p), "version") == MaybeNum(p.seedVersion)
    ensures At(SeedJson(p), "puzzleHash") == Some(p.derived.seedPuzzleHash)
    ensures At(SeedJson(p), "circulating") == Some(Bool(false))
  {
    hide Chars, At, SEED_KEYS;
    SeedKeysDiffer();
    SeedNames();
    FieldsAt(SEED_KEYS, SeedValues(p));
  }

  lemma SeedNames()
    ensures |SEED_KEYS| == 6 && SEED_KEYS[0] == "amount" && SEED_KEYS[1] == "coinId" && SEED_KEYS[2] == "purpose"
    ensures SEED_KEYS[3] == "version" && SEED_KEYS[4] == "puzzleHash" && SEED_KEYS[5] == "circulating"
  {
  }

  /** The keys of the funding coins. */
  lemma FundingAt(p: Payload)
    ensures At(FundingJson(p), "did") == TextAt(p.funding, 2)
    ensures At(FundingJson(p), "sgt") == TextAt(p.funding, 0)
    ensures At(FundingJson(p), "pool") == TextAt(p.funding, 1)
    ensures At(FundingJson(p), "statutes") == TextAt(p.funding, 4)
    ensures At(FundingJson(p), "governance") == TextAt(p.funding, 3)
    ensures At(FundingJson(p), "bridge_batch") == TextAt(p.funding, 8)
    ensures At(FundingJson(p), "admin_authority") == TextAt(p.funding, 6)
    ensures At(FundingJson(p), "protocol_config") == TextAt(p.funding, 5)
    ensures At(FundingJson(p), "vault_version_registry") == TextAt(p.funding, 7)
  {
    hide Chars, At, FUNDING_KEYS;
    FundingKeysDiffer();
    FundingNames();
    FieldsAt(FUNDING_KEYS, FundingValues(p));
  }

  lemma FundingNames()
    ensures |FUNDING_KEYS| == 9 && FUNDING_KEYS[0] == "did" && FUNDING_KEYS[1] == "sgt" && FUNDING_KEYS[2] == "pool"
    ensures FUNDING_KEYS[3] == "statutes" && FUNDING_KEYS[4] == "governance" && FUNDING_KEYS[5] == "bridge_batch"
    ensures FUNDING_KEYS[6] == "admin_authority" && FUNDING_KEYS[7] == "protocol_config"
    ensures FUNDING_KEYS[8] == "vault_version_registry"
  {
  }

  /** The keys of the protocol parameters. */
  lemma ParametersAt(p: Payload)
    ensures At(ParametersJson(p), "quorumBps") == NumAt(p.parameters, 1)
    ensures At(ParametersJson(p), "exchangeFeeBps") == NumAt(p.parameters, 5)
    ensures At(ParametersJson(p), "protocolFeeBps") == NumAt(p.parameters, 6)
    ensures At(ParametersJson(p), "sgtTotalSupply") == Some(p.derived.totalSupply)
    ensures At(ParametersJson(p), "minProposalStake") == NumAt(p.parameters, 2)
    ensures At(ParametersJson(p), "sgtRewardsFeeBps") == NumAt(p.parameters, 7)
    ensures At(ParametersJson(p), "navValiditySeconds") == NumAt(p.parameters, 3)
    ensures At(ParametersJson(p), "rewardEpochSeconds") == NumAt(p.parameters, 8)
    ensures At(ParametersJson(p), "oracleMaxAgeSeconds") == NumAt(p.parameters, 4)
    ensures At(ParametersJson(p), "votingWindowSeconds") == NumAt(p.parameters, 0)
  {
    hide Chars, At, PARAMETERS_KEYS;
    ParametersKeysDiffer();
    ParametersNames();
    FieldsAt(PARAMETERS_KEYS, ParametersValues(p));
  }

  lemma ParametersNames()
    ensures |PARAMETERS_KEYS| == 10 && PARAMETERS_KEYS[0] == "quorumBps" && PARAMETERS_KEYS[1] == "exchangeFeeBps"
    ensures PARAMETERS_KEYS[2] == "protocolFeeBps" && PARAMETERS_KEYS[3] == "sgtTotalSupply"
    ensures PARAMETERS_KEYS[4] == "minProposalStake" && PARAMETERS_KEYS[5] == "sgtRewardsFeeBps"
    ensures PARAMETERS_KEYS[6] == "navValiditySeconds" && PARAMETERS_KEYS[7] == "rewardEpochSeconds"
    ensures PARAMETERS_KEYS[8] == "oracleMaxAgeSeconds" && PARAMETERS_KEYS[9] == "votingWindowSeconds"
  {
  }

  /** The keys of the state. */
  lemma StateAt(p: Payload)
    ensures At(StateJson(p), "poolVersion") == Some(p.derived.poolVersion)
    ensures At(StateJson(p), "vaultVersion") == Some(Num(p.versions.vault))
    ensures At(StateJson(p), "statutesRoots") == Some(p.derived.statutesRoots)
    ensures At(StateJson(p), "statutesVersion") == Some(p.derived.statutesVersion)
    ensures At(StateJson(p), "poolCommitmentHash") == Some(p.derived.poolCommitment)
    ensures At(StateJson(p), "statutesContentHash") == Some(p.derived.statutesContent)
    ensures At(StateJson(p), "adminAuthorityVersion") == Some(Num(p.versions.authority))
    ensures At(StateJson(p), "protocolConfigVersion") == Some(Num(p.versions.config))
    ensures At(StateJson(p), "propertyRegistryVersion") == Some(Num(p.versions.registry))
  {
    hide Chars, At, STATE_KEYS;
    StateKeysDiffer();
    StateNames();
    FieldsAt(STATE_KEYS, StateValues(p));
  }

  lemma StateNames()
    ensures |STATE_KEYS| == 9 && STATE_KEYS[0] == "poolVersion" && STATE_KEYS[1] == "vaultVersion"
    ensures STATE_KEYS[2] == "statutesRoots" && STATE_KEYS[3] == "statutesVersion"
    ensures STATE_KEYS[4] == "poolCommitmentHash" && STATE_KEYS[5] == "statutesContentHash"
    ensures STATE_KEYS[6] == "adminAuthorityVersion" && STATE_KEYS[7] == "protocolConfigVersion"
    ensures STATE_KEYS[8] == "propertyRegistryVersion"
  {
  }

  /** The keys of the validators. */
  lemma ValidatorsAt(p: Payload)
    ensures At(ValidatorsJson(p), "pubkeys") == Some(List(Texts(p.validators)))
    ensures At(ValidatorsJson(p), "threshold") == Some(Num(2))
  {
    hide Chars, At, VALIDATORS_KEYS;
    ValidatorsKeysDiffer();
    ValidatorsNames();
    FieldsAt(VALIDATORS_KEYS, ValidatorsValues(p));
  }

  lemma ValidatorsNames()
    ensures |VALIDATORS_KEYS| == 2 && VALIDATORS_KEYS[0] == "pubkeys" && VALIDATORS_KEYS[1] == "threshold"
  {
  }

  /** The keys of the destinations. */
  lemma DestinationsAt(p: Payload)
    ensures At(DestinationsJson(p), "governanceRewardsRoot") == TextAt(p.destinations, 5)
    ensures At(DestinationsJson(p), "treasuryReservePuzzleHash") == TextAt(p.destinations, 0)
    ensures At(DestinationsJson(p), "protocolTreasuryPuzzleHash") == TextAt(p.destinations, 1)
    ensures At(DestinationsJson(p), "governanceRewardsPuzzleHash") == TextAt(p.destinations, 4)
    ensures At(DestinationsJson(p), "companySgtSaleTreasuryPuzzleHash") == TextAt(p.destinations, 2)
  {
    hide Chars, At, DESTINATIONS_KEYS;
    DestinationsKeysDiffer();
    DestinationsNames();
    FieldsAt(DESTINATIONS_KEYS, DestinationsValues(p));
  }

  lemma DestinationsNames()
    ensures |DESTINATIONS_KEYS| == 5 && DESTINATIONS_KEYS[0] == "governanceRewardsRoot"
    ensures DESTINATIONS_KEYS[1] == "treasuryReservePuzzleHash"
    ensures DESTINATIONS_KEYS[2] == "protocolTreasuryPuzzleHash"
    ensures DESTINATIONS_KEYS[3] == "governanceRewardsPuzzleHash"
    ensures DESTINATIONS_KEYS[4] == "companySgtSaleTreasuryPuzzleHash"
  {
  }

  /** The keys of the assets. */
  lemma AssetsAt(p: Payload)
    ensures At(AssetsJson(p), "wusdcBAssetId") == TextAt(p.destinations, 3)
  {
    hide Chars, At, ASSETS_KEYS;
    AssetsKeysDiffer();
    AssetsNames();
    FieldsAt(ASSETS_KEYS, AssetsValues(p));
  }

  lemma AssetsNames()
    ensures |ASSETS_KEYS| == 1 && ASSETS_KEYS[0] == "wusdcBAssetId"
  {
  }

  /** The keys of a recovery kit. */
  lemma KitAt(p: Payload, i: nat)
    requires i < |p.kits|
    ensures At(KitJson(p, i), "slot") == Some(Num(i))
    ensures At(KitJson(p, i), "revision") == Some(Num(p.kits[i].revision))
    ensures At(KitJson(p, i), "evmGuardian") == Some(TextJson(p.kits[i].guardian))
    ensures At(KitJson(p, i), "recoveryBlsPubkey") == Some(TextJson(p.kits[i].recoveryKey))
    ensures At(KitJson(p, i), "drillChallengeHash") == Some(TextJson(p.kits[i].drill))
    ensures At(KitJson(p, i), "recoveryBlsCommitment") == Some(p.derived.Commitment(i))
  {
    hide Chars, At, KIT_KEYS;
    KitKeysDiffer();
    KitNames();
    FieldsAt(KIT_KEYS, KitValues(p, i));
  }

  lemma KitNames()
    ensures |KIT_KEYS| == 6 && KIT_KEYS[0] == "slot" && KIT_KEYS[1] == "revision" && KIT_KEYS[2] == "evmGuardian"
    ensures KIT_KEYS[3] == "recoveryBlsPubkey" && KIT_KEYS[4] == "drillChallengeHash"
    ensures KIT_KEYS[5] == "recoveryBlsCommitment"
  {
  }

  /** A run of neighbouring fields. */
  lemma GroupAt(keys: seq<string>, vs: seq<Option<Json>>, offset: nat, some: seq<string>, ws: seq<Option<Json>>)
    requires |keys| == |vs| && Distinct(keys) && offset + |some| <= |keys| && |some| == |ws|
    requires keys[offset..offset + |some|] == some && vs[offset..offset + |some|] == ws
    ensures forall i :: 0 <= i < |some| ==> At(Obj(Fields(keys, vs)), some[i]) == ws[i]
  {
    hide At;
    FieldsAt(keys, vs);
    forall i | 0 <= i < |some|
      ensures At(Obj(Fields(keys, vs)), some[i]) == ws[i]
    {
      assert some[i] == keys[offset + i] && ws[i] == vs[offset + i];
    }
  }

  lemma AdminJsonParts(p: Payload)
    ensures |AdminKeys()| == |AdminValues(p)|
    ensures |AdminKeys()| >= 8 && |FIRST_ADMIN_KEYS| == 8
    ensures AdminKeys()[0..8] == FIRST_ADMIN_KEYS && AdminValues(p)[0..8] == FirstAdminValues(p)
    ensures |AdminKeys()| >= 16 && |SECOND_ADMIN_KEYS| == 8
    ensures AdminKeys()[8..16] == SECOND_ADMIN_KEYS && AdminValues(p)[8..16] == SecondAdminValues(p)
  {
    hide FirstAdminValues, SecondAdminValues;
  }

  lemma PayloadJsonParts(p: Payload)
    ensures |PayloadKeys()| == |PayloadValues(p)|
    ensures |PayloadKeys()| >= 8 && |FIRST_PAYLOAD_KEYS| == 8
    ensures PayloadKeys()[0..8] == FIRST_PAYLOAD_KEYS && PayloadValues(p)[0..8] == FirstPayloadValues(p)
    ensures |PayloadKeys()| >= 16 && |SECOND_PAYLOAD_KEYS| == 8
    ensures PayloadKeys()[8..16] == SECOND_PAYLOAD_KEYS && PayloadValues(p)[8..16] == SecondPayloadValues(p)
    ensures |PayloadKeys()| >= 24 && |THIRD_PAYLOAD_KEYS| == 8
    ensures PayloadKeys()[16..24] == THIRD_PAYLOAD_KEYS && PayloadValues(p)[16..24] == ThirdPayloadValues(p)
    ensures |PayloadKeys()| >= 33 && |FOURTH_PAYLOAD_KEYS| == 9
    ensures PayloadKeys()[24..33] == FOURTH_PAYLOAD_KEYS && PayloadValues(p)[24..33] == FourthPayloadValues(p)
  {
    hide FirstPayloadValues, SecondPayloadValues, ThirdPayloadValues, FourthPayloadValues;
  }

  /** Keys of the authority. */
  lemma FirstAdminAt(p: Payload)
    ensures At(AdminJson(p), "policy") == Some(TextJson("owner-plus-one"))
    ensures At(AdminJson(p), "pending") == Some(Bool(false))
    ensures At(AdminJson(p), "version") == Some(Num(3))
    ensures At(AdminJson(p), "threshold") == Some(Num(2))
    ensures At(AdminJson(p), "adminsHash") == Some(p.derived.adminsHash)
    ensures At(AdminJson(p), "ownerIndex") == Some(Num(0))
    ensures At(AdminJson(p), "fundingAmount") == Some(Num(16))
    ensures At(AdminJson(p), "coadminIndices") == Some(List(Numbers([1, 2])))
  {
    hide Chars, At, Fields, AdminKeys, AdminValues, FIRST_ADMIN_KEYS, SECOND_ADMIN_KEYS;
    AdminKeysDiffer();
    FirstAdminNames();
    AdminJsonParts(p);
    GroupAt(AdminKeys(), AdminValues(p), 0, FIRST_ADMIN_KEYS, FirstAdminValues(p));
  }

  lemma FirstAdminNames()
    ensures |FIRST_ADMIN_KEYS| == 8 && FIRST_ADMIN_KEYS[0] == "policy" && FIRST_ADMIN_KEYS[1] == "pending"
    ensures FIRST_ADMIN_KEYS[2] == "version" && FIRST_ADMIN_KEYS[3] == "threshold"
    ensures FIRST_ADMIN_KEYS[4] == "adminsHash" && FIRST_ADMIN_KEYS[5] == "ownerIndex"
    ensures FIRST_ADMIN_KEYS[6] == "fundingAmount" && FIRST_ADMIN_KEYS[7] == "coadminIndices"
  {
  }

  /** Keys of the authority. */
  lemma SecondAdminAt(p: Payload)
    ensures At(AdminJson(p), "identityVaults") == Some(p.derived.identityVaults)
    ensures At(AdminJson(p), "coadminThreshold") == Some(Num(1))
    ensures At(AdminJson(p), "compressedPubkeys") == Some(List(Texts(p.adminKeys)))
    ensures At(AdminJson(p), "sourceManifestHash") == Some(p.derived.sourceManifest)
    ensures At(AdminJson(p), "lostKeyDelaySeconds") == Some(Num(604_800))
    ensures At(AdminJson(p), "routineDelaySeconds") == Some(Num(86_400))
    ensures At(AdminJson(p), "operationalMipsRootHash") == Some(p.derived.operationalRoot)
    ensures At(AdminJson(p), "lostRecoveryMipsRootHashes") == Some(p.derived.lostRoots)
  {
    hide Chars, At, Fields, AdminKeys, AdminValues, FIRST_ADMIN_KEYS, SECOND_ADMIN_KEYS;
    AdminKeysDiffer();
    SecondAdminNames();
    AdminJsonParts(p);
    GroupAt(AdminKeys(), AdminValues(p), 8, SECOND_ADMIN_KEYS, SecondAdminValues(p));
  }

  lemma SecondAdminNames()
    ensures |SECOND_ADMIN_KEYS| == 8 && SECOND_ADMIN_KEYS[0] == "identityVaults"
    ensures SECOND_ADMIN_KEYS[1] == "coadminThreshold" && SECOND_ADMIN_KEYS[2] == "compressedPubkeys"
    ensures SECOND_ADMIN_KEYS[3] == "sourceManifestHash" && SECOND_ADMIN_KEYS[4] == "lostKeyDelaySeconds"
    ensures SECOND_ADMIN_KEYS[5] == "routineDelaySeconds" && SECOND_ADMIN_KEYS[6] == "operationalMipsRootHash"
    ensures SECOND_ADMIN_KEYS[7] == "lostRecoveryMipsRootHashes"
  {
  }

  /** Keys of the payload. */
  lemma FirstPayloadAt(p: Payload)
    ensures At(PayloadJson(p), "state") == Some(StateJson(p))
    ensures At(PayloadJson(p), "schema") == Some(TextJson("solslot-genesis-plan-v4"))
    ensures At(PayloadJson(p), "network") == Some(TextJson(p.network))
    ensures At(PayloadJson(p), "expiresAt") == Some(Num(p.expiresAt))
    ensures At(PayloadJson(p), "ceremonyId") == Some(TextJson(p.ceremonyId))
    ensures At(PayloadJson(p), "evmChainId") == Some(Num(p.evmChainId))
    ensures At(PayloadJson(p), "sourceShas") == Some(SourcesJson(p))
    ensures At(PayloadJson(p), "bridgeBatch") == Some(p.derived.bridgeBatch)
  {
    hide Chars, At, Fields, PayloadKeys, PayloadValues, FIRST_PAYLOAD_KEYS, SECOND_PAYLOAD_KEYS, THIRD_PAYLOAD_KEYS,
      FOURTH_PAYLOAD_KEYS,
      StateJson, SourcesJson, AddressesJson, ValidatorsJson, AssetsJson, AdminJson, FundingJson, SeedJson, KitsJson,
      ParametersJson, DestinationsJson, List;
    PayloadKeysDiffer();
    FirstPayloadNames();
    PayloadJsonParts(p);
    GroupAt(PayloadKeys(), PayloadValues(p), 0, FIRST_PAYLOAD_KEYS, FirstPayloadValues(p));
  }

  lemma FirstPayloadNames()
    ensures |FIRST_PAYLOAD_KEYS| == 8 && FIRST_PAYLOAD_KEYS[0] == "state" && FIRST_PAYLOAD_KEYS[1] == "schema"
    ensures FIRST_PAYLOAD_KEYS[2] == "network" && FIRST_PAYLOAD_KEYS[3] == "expiresAt"
    ensures FIRST_PAYLOAD_KEYS[4] == "ceremonyId" && FIRST_PAYLOAD_KEYS[5] == "evmChainId"
    ensures FIRST_PAYLOAD_KEYS[6] == "sourceShas" && FIRST_PAYLOAD_KEYS[7] == "bridgeBatch"
  {
  }

  /** Keys of the payload. */
  lemma SecondPayloadAt(p: Payload)
    ensures At(PayloadJson(p), "launcherIds") == Some(p.derived.launcherIds)
    ensures At(PayloadJson(p), "evmAddresses") == Some(AddressesJson(p))
    ensures At(PayloadJson(p), "puzzleHashes") == Some(p.derived.puzzleHashes)
    ensures At(PayloadJson(p), "validatorSet") == Some(ValidatorsJson(p))
    ensures At(PayloadJson(p), "trustedAssets") == Some(AssetsJson(p))
    ensures At(PayloadJson(p), "adminAuthority") == Some(AdminJson(p))
    ensures At(PayloadJson(p), "fundingCoinIds") == Some(FundingJson(p))
    ensures At(PayloadJson(p), "identityPolicy") == p.identityPolicy
  {
    hide Chars, At, Fields, PayloadKeys, PayloadValues, FIRST_PAYLOAD_KEYS, SECOND_PAYLOAD_KEYS, THIRD_PAYLOAD_KEYS,
      FOURTH_PAYLOAD_KEYS,
      StateJson, SourcesJson, AddressesJson, ValidatorsJson, AssetsJson, AdminJson, FundingJson, SeedJson, KitsJson,
      ParametersJson, DestinationsJson, List;
    PayloadKeysDiffer();
    SecondPayloadNames();
    PayloadJsonParts(p);
    GroupAt(PayloadKeys(), PayloadValues(p), 8, SECOND_PAYLOAD_KEYS, SecondPayloadValues(p));
  }

  lemma SecondPayloadNames()
    ensures |SECOND_PAYLOAD_KEYS| == 8 && SECOND_PAYLOAD_KEYS[0] == "launcherIds"
    ensures SECOND_PAYLOAD_KEYS[1] == "evmAddresses" && SECOND_PAYLOAD_KEYS[2] == "puzzleHashes"
    ensures SECOND_PAYLOAD_KEYS[3] == "validatorSet" && SECOND_PAYLOAD_KEYS[4] == "trustedAssets"
    ensures SECOND_PAYLOAD_KEYS[5] == "adminAuthority" && SECOND_PAYLOAD_KEYS[6] == "fundingCoinIds"
    ensures SECOND_PAYLOAD_KEYS[7] == "identityPolicy"
  {
  }

  /** Keys of the payload. */
  lemma ThirdPayloadAt(p: Payload)
    ensures At(PayloadJson(p), "paymentChainId") == MaybeNum(p.paymentChain)
    ensures At(PayloadJson(p), "permanentRules") == Some(p.derived.permanentRules)
    ensures At(PayloadJson(p), "protocolVersion") == Some(TextJson("solslot-v2-rc23"))
    ensures At(PayloadJson(p), "solsReserveSeed") == Some(SeedJson(p))
    ensures At(PayloadJson(p), "faucetPuzzleHash") == Some(TextJson(p.faucet))
    ensures At(PayloadJson(p), "adminRecoveryKits") == Some(KitsJson(p))
    ensures At(PayloadJson(p), "poolPuzzleVersion") == MaybeNum(p.poolPuzzleVersion)
    ensures At(PayloadJson(p), "protocolParameters") == Some(ParametersJson(p))
  {
    hide Chars, At, Fields, PayloadKeys, PayloadValues, FIRST_PAYLOAD_KEYS, SECOND_PAYLOAD_KEYS, THIRD_PAYLOAD_KEYS,
      FOURTH_PAYLOAD_KEYS,
      StateJson, SourcesJson, AddressesJson, ValidatorsJson, AssetsJson, AdminJson, FundingJson, SeedJson, KitsJson,
      ParametersJson, DestinationsJson, List;
    PayloadKeysDiffer();
    ThirdPayloadNames();
    PayloadJsonParts(p);
    GroupAt(PayloadKeys(), PayloadValues(p), 16, THIRD_PAYLOAD_KEYS, ThirdPayloadValues(p));
  }

  lemma ThirdPayloadNames()
    ensures |THIRD_PAYLOAD_KEYS| == 8 && THIRD_PAYLOAD_KEYS[0] == "paymentChainId"
    ensures THIRD_PAYLOAD_KEYS[1] == "permanentRules" && THIRD_PAYLOAD_KEYS[2] == "protocolVersion"
    ensures THIRD_PAYLOAD_KEYS[3] == "solsReserveSeed" && THIRD_PAYLOAD_KEYS[4] == "faucetPuzzleHash"
    ensures THIRD_PAYLOAD_KEYS[5] == "adminRecoveryKits" && THIRD_PAYLOAD_KEYS[6] == "poolPuzzleVersion"
    ensures THIRD_PAYLOAD_KEYS[7] == "protocolParameters"
  {
  }

  /** Keys of the payload. */
  lemma FourthPayloadAt(p: Payload)
    ensures At(PayloadJson(p), "retiredCoordinates") == Some(List(Texts(p.retired)))
    ensures At(PayloadJson(p), "governanceBlsPubkey") == Some(TextJson(p.governanceKey))
    ensures At(PayloadJson(p), "trustedDestinations") == Some(DestinationsJson(p))
    ensures At(PayloadJson(p), "enrollmentActivation") == p.activation
    ensures At(PayloadJson(p), "kosMintExecutePubkey") == Some(TextJson(p.kosKey))
    ensures At(PayloadJson(p), "sourceManifestVersion") == Some(Num(4))
    ensures At(PayloadJson(p), "authorityPuzzleVersion") == MaybeNum(p.authorityPuzzleVersion)
    ensures At(PayloadJson(p), "canonicalVaultParamsHash") == Some(p.derived.vaultParams)
    ensures At(PayloadJson(p), "recoveryDependencyManifestHash") == Some(TextJson(p.manifest))
  {
    hide Chars, At, Fields, PayloadKeys, PayloadValues, FIRST_PAYLOAD_KEYS, SECOND_PAYLOAD_KEYS, THIRD_PAYLOAD_KEYS,
      FOURTH_PAYLOAD_KEYS,
      StateJson, SourcesJson, AddressesJson, ValidatorsJson, AssetsJson, AdminJson, FundingJson, SeedJson, KitsJson,
      ParametersJson, DestinationsJson, List;
    PayloadKeysDiffer();
    FourthPayloadNames();
    PayloadJsonParts(p);
    GroupAt(PayloadKeys(), PayloadValues(p), 24, FOURTH_PAYLOAD_KEYS, FourthPayloadValues(p));
  }

  lemma FourthPayloadNames()
    ensures |FOURTH_PAYLOAD_KEYS| == 9 && FOURTH_PAYLOAD_KEYS[0] == "retiredCoordinates"
    ensures FOURTH_PAYLOAD_KEYS[1] == "governanceBlsPubkey" && FOURTH_PAYLOAD_KEYS[2] == "trustedDestinations"
    ensures FOURTH_PAYLOAD_KEYS[3] == "enrollmentActivation" && FOURTH_PAYLOAD_KEYS[4] == "kosMintExecutePubkey"
    ensures FOURTH_PAYLOAD_KEYS[5] == "sourceManifestVersion" && FOURTH_PAYLOAD_KEYS[6] == "authorityPuzzleVersion"
    ensures FOURTH_PAYLOAD_KEYS[7] == "canonicalVaultParamsHash"
    ensures FOURTH_PAYLOAD_KEYS[8] == "recoveryDependencyManifestHash"
  {
  }

  /** What a map has under a name. */
  function TextOf(m: map<Name, string>, name: Name): Option<Json> {
    if name in m then Some(TextJson(m[name])) else None
  }

  /** Each source commit stands under its own repository. */
  lemma SourcesAt(p: Payload)
    ensures At(SourcesJson(p), "api") == TextOf(p.sources, Api)
    ensures At(SourcesJson(p), "evm") == TextOf(p.sources, Evm)
    ensures At(SourcesJson(p), "samuel") == TextOf(p.sources, Samuel)
    ensures At(SourcesJson(p), "protocol") == TextOf(p.sources, Protocol)
    ensures At(SourcesJson(p), "omnichain") == TextOf(p.sources, Omnichain)
    ensures At(SourcesJson(p), "adminPortal") == TextOf(p.sources, AdminPortal)
    ensures At(SourcesJson(p), "customerWeb") == TextOf(p.sources, CustomerWeb)
    ensures At(SourcesJson(p), "keyOfSolomon") == TextOf(p.sources, KeyOfSolomon)
    ensures At(SourcesJson(p), "legacyBackend") == TextOf(p.sources, LegacyBackend)
  {
    hide Chars, At, TextJson, SOURCE_KEYS, SOURCE_ORDER;
    SourceKeysDiffer();
    SourcesNames();
    FieldsAt(SOURCE_KEYS, NamedValues(SOURCE_ORDER, p.sources));
  }

  lemma SourcesNames()
    ensures |SOURCE_KEYS| == |SOURCE_ORDER| == 9
    ensures SOURCE_KEYS[0] == "api" && SOURCE_ORDER[0] == Api
    ensures SOURCE_KEYS[1] == "evm" && SOURCE_ORDER[1] == Evm
    ensures SOURCE_KEYS[2] == "samuel" && SOURCE_ORDER[2] == Samuel
    ensures SOURCE_KEYS[3] == "protocol" && SOURCE_ORDER[3] == Protocol
    ensures SOURCE_KEYS[4] == "omnichain" && SOURCE_ORDER[4] == Omnichain
    ensures SOURCE_KEYS[5] == "adminPortal" && SOURCE_ORDER[5] == AdminPortal
    ensures SOURCE_KEYS[6] == "customerWeb" && SOURCE_ORDER[6] == CustomerWeb
    ensures SOURCE_KEYS[7] == "keyOfSolomon" && SOURCE_ORDER[7] == KeyOfSolomon
    ensures SOURCE_KEYS[8] == "legacyBackend" && SOURCE_ORDER[8] == LegacyBackend
  {
  }

  /** Each contract address stands under its own contract. */
  lemma AddressesAt(p: Payload)
    ensures At(AddressesJson(p), "forwarder") == TextOf(p.addresses, Forwarder)
    ensures At(AddressesJson(p), "verifierAdapter") == TextOf(p.addresses, VerifierAdapter)
    ensures At(AddressesJson(p), "attestationEmitter") == TextOf(p.addresses, AttestationEmitter)
  {
    hide Chars, At, TextJson, ADDRESS_KEYS, ADDRESS_ORDER;
    AddressKeysDiffer();
    AddressesNames();
    FieldsAt(ADDRESS_KEYS, NamedValues(ADDRESS_ORDER, p.addresses));
  }

  lemma AddressesNames()
    ensures |ADDRESS_KEYS| == |ADDRESS_ORDER| == 3
    ensures ADDRESS_KEYS[0] == "forwarder" && ADDRESS_ORDER[0] == Forwarder
    ensures ADDRESS_KEYS[1] == "verifierAdapter" && ADDRESS_ORDER[1] == VerifierAdapter
    ensures ADDRESS_KEYS[2] == "attestationEmitter" && ADDRESS_ORDER[2] == AttestationEmitter
  {
  }

  /** The commitments of the recovery keys stand in the kits of their slots. */
  lemma CommitmentsAt(p: Payload, i: nat)
    requires i < |p.kits| && i < 3
    ensures At(KitJson(p, i), "recoveryBlsCommitment")
         == Some([p.derived.commitment0, p.derived.commitment1, p.derived.commitment2][i])
  {
    hide At, KitJson;
    KitAt(p, i);
  }

  // ---------------------------------------------------------------- plans

  /** What an object inside has under a key. */
  function Under(v: Json, outer: string, key: string): Option<Json> {
    if At(v, outer).Some? then At(At(v, outer).value, key) else None
  }

  function Written(b: Bytes): Option<Json> {
    Some(TextJson(HexText.Hex(b)))
  }

  /** The keys and hashes that a plan names stand under their own names in the text that is hashed. */
  lemma PlanIsWritten(p: Plan)
    requires p.inputs.manifest.Some?
    ensures var n, j := p.inputs, PayloadJson(Unhashed(p));
      && At(j, "ceremonyId") == Written(n.ceremonyId) && At(j, "faucetPuzzleHash") == Written(n.faucet)
      && At(j, "governanceBlsPubkey") == Written(n.governanceKey) && At(j, "kosMintExecutePubkey") == Written(n.kosKey)
      && At(j, "recoveryDependencyManifestHash") == Written(n.manifest.value)
      && At(j, "network") == Some(TextJson(n.network)) && At(j, "evmChainId") == Some(Num(n.evmChainId))
      && At(j, "expiresAt") == Some(Num(n.expiresAt))
      && At(j, "identityPolicy") == n.identityPolicy && At(j, "enrollmentActivation") == n.activation
      && At(j, "paymentChainId") == (if n.paymentChain.None? then None else Some(Num(n.paymentChain.value)))
      && At(j, "poolPuzzleVersion") == (if n.poolPuzzleVersion == 4 then None else Some(Num(n.poolPuzzleVersion)))
      && At(j, "authorityPuzzleVersion")
         == (if n.authorityPuzzleVersion == 3 then None else Some(Num(n.authorityPuzzleVersion)))
      && Under(j, "solsReserveSeed", "version") == (if n.seedVersion == 1 then None else Some(Num(n.seedVersion)))
  {
    hide At, PayloadJson, HexText.Hex, TextJson, SeedJson, StateJson, SourcesJson, AddressesJson, ValidatorsJson,
      AssetsJson,
      AdminJson, FundingJson, KitsJson, ParametersJson, DestinationsJson, HexAll, KitTexts;
    var q := Unhashed(p);
    FirstPayloadAt(q);
    SecondPayloadAt(q);
    ThirdPayloadAt(q);
    FourthPayloadAt(q);
    SeedAt(q);
  }

  /** So do its funding coins, in the order sgt, pool, did, governance, statutes, config, authority, vault, bridge. */
  lemma FundingIsWritten(p: Plan)
    requires p.inputs.manifest.Some? && |p.inputs.funding| == 9
    ensures var f, j := p.inputs.funding, PayloadJson(Unhashed(p));
      && Under(j, "fundingCoinIds", "sgt") == Written(f[0]) && Under(j, "fundingCoinIds", "pool") == Written(f[1])
      && Under(j, "fundingCoinIds", "did") == Written(f[2])
      && Under(j, "fundingCoinIds", "governance") == Written(f[3])
      && Under(j, "fundingCoinIds", "statutes") == Written(f[4])
      && Under(j, "fundingCoinIds", "protocol_config") == Written(f[5])
      && Under(j, "fundingCoinIds", "admin_authority") == Written(f[6])
      && Under(j, "fundingCoinIds", "vault_version_registry") == Written(f[7])
      && Under(j, "fundingCoinIds", "bridge_batch") == Written(f[8])
  {
    hide At, PayloadJson, HexText.Hex, TextJson, StateJson, ValidatorsJson, AssetsJson, AdminJson, AddressesJson;
    SecondPayloadAt(Unhashed(p));
    FundingAt(Unhashed(p));
  }
}
