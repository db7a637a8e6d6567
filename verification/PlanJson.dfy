/**
 The payload of a ceremony plan as a JSON object, with the names and the nesting that the program gives it.
 */
module PlanJson {
  import opened Results
  import opened Json
  import opened JsonFields

  /** The keys of source commits and of contract addresses; others are not wanted. */
  datatype Name =
    | Protocol | Evm | Omnichain | Api | LegacyBackend | KeyOfSolomon | Samuel | CustomerWeb | AdminPortal
    | Forwarder | VerifierAdapter | AttestationEmitter
    | Other(key: string)

  datatype Versions = Versions(config: int, authority: int, vault: int, registry: int)

  const SOURCE_NAMES: set<Name> :=
    {Protocol, Evm, Omnichain, Api, LegacyBackend, KeyOfSolomon, Samuel, CustomerWeb, AdminPortal}
  const ADDRESS_NAMES: set<Name> := {Forwarder, VerifierAdapter, AttestationEmitter}

  /** What other modules derive from the inputs: launcher ids, hashes, roots, rules and the bridge batch. */
  datatype Derived = Derived(
    launcherIds: Block, puzzleHashes: Block, permanentRules: Block, bridgeBatch: Block, vaultParams: Block,
    seedPuzzleHash: Block, seedCoinId: Block, totalSupply: Block,
    statutesVersion: Block, statutesContent: Block, statutesRoots: Block, poolVersion: Block, poolCommitment: Block,
    sourceManifest: Block, operationalRoot: Block, lostRoots: Block, identityVaults: Block, adminsHash: Block,
    commitment0: Block, commitment1: Block, commitment2: Block)
  {
    /** The commitment of a slot's recovery key. */
    function Commitment(slot: nat): Block {
      if slot == 0 then commitment0 else if slot == 1 then commitment1 else commitment2
    }
  }

  datatype KitText = KitText(recoveryKey: string, guardian: string, revision: int, drill: string)

  /** The optional keys are absent where the plan has the default. */
  datatype Payload = Payload(
    ceremonyId: string, expiresAt: int,
    sources: map<Name, string>, addresses: map<Name, string>,
    funding: seq<string>, faucet: string, governanceKey: string, kosKey: string,
    adminKeys: seq<string>, kits: seq<KitText>, validators: seq<string>,
    destinations: seq<string>, retired: seq<string>,
    manifest: string,
    parameters: seq<int>, network: string, evmChainId: int, versions: Versions,
    activation: Option<Block>, paymentChain: Option<int>, identityPolicy: Option<Block>,
    seedVersion: Option<int>, poolPuzzleVersion: Option<int>, authorityPuzzleVersion: Option<int>,
    derived: Derived, planHash: Option<string>)

  // ---------------------------------------------------------------- names

  /** The field names of every object, short ones first. */
  const SEED_KEYS: seq<string> := ["amount", "coinId", "purpose", "version", "puzzleHash", "circulating"]
  const FUNDING_KEYS: seq<string> := [
    "did", "sgt", "pool", "statutes", "governance", "bridge_batch", "admin_authority", "protocol_config",
    "vault_version_registry"]
  const PARAMETERS_KEYS: seq<string> := [
    "quorumBps", "exchangeFeeBps", "protocolFeeBps", "sgtTotalSupply", "minProposalStake", "sgtRewardsFeeBps",
    "navValiditySeconds", "rewardEpochSeconds", "oracleMaxAgeSeconds", "votingWindowSeconds"]
  const STATE_KEYS: seq<string> := [
    "poolVersion", "vaultVersion", "statutesRoots", "statutesVersion", "poolCommitmentHash", "statutesContentHash",
    "adminAuthorityVersion", "protocolConfigVersion", "propertyRegistryVersion"]
  const FIRST_ADMIN_KEYS: seq<string> := [
    "policy", "pending", "version", "threshold", "adminsHash", "ownerIndex", "fundingAmount", "coadminIndices"]
  const SECOND_ADMIN_KEYS: seq<string> := [
    "identityVaults", "coadminThreshold", "compressedPubkeys", "sourceManifestHash", "lostKeyDelaySeconds",
    "routineDelaySeconds", "operationalMipsRootHash", "lostRecoveryMipsRootHashes"]
  const VALIDATORS_KEYS: seq<string> := ["pubkeys", "threshold"]
  const DESTINATIONS_KEYS: seq<string> := [
    "governanceRewardsRoot", "treasuryReservePuzzleHash", "protocolTreasuryPuzzleHash", "governanceRewardsPuzzleHash",
    "companySgtSaleTreasuryPuzzleHash"]
  const ASSETS_KEYS: seq<string> := ["wusdcBAssetId"]
  const KIT_KEYS: seq<string> := [
    "slot", "revision", "evmGuardian", "recoveryBlsPubkey", "drillChallengeHash", "recoveryBlsCommitment"]
  const SOURCE_KEYS: seq<string> := [
    "api", "evm", "samuel", "protocol", "omnichain", "adminPortal", "customerWeb", "keyOfSolomon", "legacyBackend"]
  const SOURCE_ORDER: seq<Name> :=
    [Api, Evm, Samuel, Protocol, Omnichain, AdminPortal, CustomerWeb, KeyOfSolomon, LegacyBackend]
  const ADDRESS_KEYS: seq<string> := ["forwarder", "verifierAdapter", "attestationEmitter"]
  const ADDRESS_ORDER: seq<Name> := [Forwarder, VerifierAdapter, AttestationEmitter]
  const FIRST_PAYLOAD_KEYS: seq<string> := [
    "state", "schema", "network", "expiresAt", "ceremonyId", "evmChainId", "sourceShas", "bridgeBatch"]
  const SECOND_PAYLOAD_KEYS: seq<string> := [
    "launcherIds", "evmAddresses", "puzzleHashes", "validatorSet", "trustedAssets", "adminAuthority",
    "fundingCoinIds", "identityPolicy"]
  const THIRD_PAYLOAD_KEYS: seq<string> := [
    "paymentChainId", "permanentRules", "protocolVersion", "solsReserveSeed", "faucetPuzzleHash", "adminRecoveryKits",
    "poolPuzzleVersion", "protocolParameters"]
  const FOURTH_PAYLOAD_KEYS: seq<string> := [
    "retiredCoordinates", "governanceBlsPubkey", "trustedDestinations", "enrollmentActivation",
    "kosMintExecutePubkey", "sourceManifestVersion", "authorityPuzzleVersion", "canonicalVaultParamsHash",
    "recoveryDependencyManifestHash"]

  // ---------------------------------------------------------------- objects

  function MaybeNum(n: Option<int>): Option<Json> {
    if n.Some? then Some(Num(n.value)) else None
  }

  function TextAt(ss: seq<string>, i: nat): Option<Json> {
    if i < |ss| then Some(TextJson(ss[i])) else None
  }

  function NumAt(ns: seq<int>, i: nat): Option<Json> {
    if i < |ns| then Some(Num(ns[i])) else None
  }

  function NamedValues(order: seq<Name>, m: map<Name, string>): seq<Option<Json>> {
    seq(|order|, i requires 0 <= i < |order| => if order[i] in m then Some(TextJson(m[order[i]])) else None)
  }

  function NamedTexts(keys: seq<string>, order: seq<Name>, m: map<Name, string>): Json
    requires |keys| == |order|
  {
    Obj(Fields(keys, NamedValues(order, m)))
  }

  function SeedValues(p: Payload): (vs: seq<Option<Json>>)
    ensures |vs| == 6
  {
    [
      Some(Num(1)),  // amount
      Some(p.derived.seedCoinId),  // coinId
      Some(TextJson("permanent-cat-lineage-anchor")),  // purpose
      MaybeNum(p.seedVersion),  // version
      Some(p.derived.seedPuzzleHash),  // puzzleHash
      Some(Bool(false))  // circulating
    ]
  }

  function SeedJson(p: Payload): Json {
    Obj(Fields(SEED_KEYS, SeedValues(p)))
  }

  function FundingValues(p: Payload): (vs: seq<Option<Json>>)
    ensures |vs| == 9
  {
    [
      TextAt(p.funding, 2),  // did
      TextAt(p.funding, 0),  // sgt
      TextAt(p.funding, 1),  // pool
      TextAt(p.funding, 4),  // statutes
      TextAt(p.funding, 3),  // governance
      TextAt(p.funding, 8),  // bridge_batch
      TextAt(p.funding, 6),  // admin_authority
      TextAt(p.funding, 5),  // protocol_config
      TextAt(p.funding, 7)  // vault_version_registry
    ]
  }

  function FundingJson(p: Payload): Json {
    Obj(Fields(FUNDING_KEYS, FundingValues(p)))
  }

  function ParametersValues(p: Payload): (vs: seq<Option<Json>>)
    ensures |vs| == 10
  {
    [
      NumAt(p.parameters, 1),  // quorumBps
      NumAt(p.parameters, 5),  // exchangeFeeBps
      NumAt(p.parameters, 6),  // protocolFeeBps
      Some(p.derived.totalSupply),  // sgtTotalSupply
      NumAt(p.parameters, 2),  // minProposalStake
      NumAt(p.parameters, 7),  // sgtRewardsFeeBps
      NumAt(p.parameters, 3),  // navValiditySeconds
      NumAt(p.parameters, 8),  // rewardEpochSeconds
      NumAt(p.parameters, 4),  // oracleMaxAgeSeconds
      NumAt(p.parameters, 0)  // votingWindowSeconds
    ]
  }

  function ParametersJson(p: Payload): Json {
    Obj(Fields(PARAMETERS_KEYS, ParametersValues(p)))
  }

  function StateValues(p: Payload): (vs: seq<Option<Json>>)
    ensures |vs| == 9
  {
    [
      Some(p.derived.poolVersion),  // poolVersion
      Some(Num(p.versions.vault)),  // vaultVersion
      Some(p.derived.statutesRoots),  // statutesRoots
      Some(p.derived.statutesVersion),  // statutesVersion
      Some(p.derived.poolCommitment),  // poolCommitmentHash
      Some(p.derived.statutesContent),  // statutesContentHash
      Some(Num(p.versions.authority)),  // adminAuthorityVersion
      Some(Num(p.versions.config)),  // protocolConfigVersion
      Some(Num(p.versions.registry))  // propertyRegistryVersion
    ]
  }

  function StateJson(p: Payload): Json {
    Obj(Fields(STATE_KEYS, StateValues(p)))
  }

  function FirstAdminValues(p: Payload): (vs: seq<Option<Json>>)
    ensures |vs| == 8
  {
    [
      Some(TextJson("owner-plus-one")),  // policy
      Some(Bool(false)),  // pending
      Some(Num(3)),  // version
      Some(Num(2)),  // threshold
      Some(p.derived.adminsHash),  // adminsHash
      Some(Num(0)),  // ownerIndex
      Some(Num(16)),  // fundingAmount
      Some(List(Numbers([1, 2])))  // coadminIndices
    ]
  }

  function SecondAdminValues(p: Payload): (vs: seq<Option<Json>>)
    ensures |vs| == 8
  {
    [
      Some(p.derived.identityVaults),  // identityVaults
      Some(Num(1)),  // coadminThreshold
      Some(List(Texts(p.adminKeys))),  // compressedPubkeys
      Some(p.derived.sourceManifest),  // sourceManifestHash
      Some(Num(604_800)),  // lostKeyDelaySeconds
      Some(Num(86_400)),  // routineDelaySeconds
      Some(p.derived.operationalRoot),  // operationalMipsRootHash
      Some(p.derived.lostRoots)  // lostRecoveryMipsRootHashes
    ]
  }

  function AdminKeys(): seq<string> {
    FIRST_ADMIN_KEYS + SECOND_ADMIN_KEYS
  }

  function AdminValues(p: Payload): seq<Option<Json>> {
    FirstAdminValues(p) + SecondAdminValues(p)
  }

  function AdminJson(p: Payload): Json {
    Obj(Fields(AdminKeys(), AdminValues(p)))
  }

  function ValidatorsValues(p: Payload): (vs: seq<Option<Json>>)
    ensures |vs| == 2
  {
    [
      Some(List(Texts(p.validators))),  // pubkeys
      Some(Num(2))  // threshold
    ]
  }

  function ValidatorsJson(p: Payload): Json {
    Obj(Fields(VALIDATORS_KEYS, ValidatorsValues(p)))
  }

  function DestinationsValues(p: Payload): (vs: seq<Option<Json>>)
    ensures |vs| == 5
  {
    [
      TextAt(p.destinations, 5),  // governanceRewardsRoot
      TextAt(p.destinations, 0),  // treasuryReservePuzzleHash
      TextAt(p.destinations, 1),  // protocolTreasuryPuzzleHash
      TextAt(p.destinations, 4),  // governanceRewardsPuzzleHash
      TextAt(p.destinations, 2)  // companySgtSaleTreasuryPuzzleHash
    ]
  }

  function DestinationsJson(p: Payload): Json {
    Obj(Fields(DESTINATIONS_KEYS, DestinationsValues(p)))
  }

  function AssetsValues(p: Payload): (vs: seq<Option<Json>>)
    ensures |vs| == 1
  {
    [
      TextAt(p.destinations, 3)  // wusdcBAssetId
    ]
  }

  function AssetsJson(p: Payload): Json {
    Obj(Fields(ASSETS_KEYS, AssetsValues(p)))
  }

  function KitValues(p: Payload, i: nat): (vs: seq<Option<Json>>)
    requires i < |p.kits|
    ensures |vs| == 6
  {
    [
      Some(Num(i)),  // slot
      Some(Num(p.kits[i].revision)),  // revision
      Some(TextJson(p.kits[i].guardian)),  // evmGuardian
      Some(TextJson(p.kits[i].recoveryKey)),  // recoveryBlsPubkey
      Some(TextJson(p.kits[i].drill)),  // drillChallengeHash
      Some(p.derived.Commitment(i))  // recoveryBlsCommitment
    ]
  }

  function KitJson(p: Payload, i: nat): Json
    requires i < |p.kits|
  {
    Obj(Fields(KIT_KEYS, KitValues(p, i)))
  }

  function KitsJson(p: Payload): Json {
    List(seq(|p.kits|, i requires 0 <= i < |p.kits| => KitJson(p, i)))
  }

  function SourcesJson(p: Payload): Json {
    NamedTexts(SOURCE_KEYS, SOURCE_ORDER, p.sources)
  }

  function AddressesJson(p: Payload): Json {
    NamedTexts(ADDRESS_KEYS, ADDRESS_ORDER, p.addresses)
  }

  function FirstPayloadValues(p: Payload): (vs: seq<Option<Json>>)
    ensures |vs| == 8
  {
    [
      Some(StateJson(p)),  // state
      Some(TextJson("solslot-genesis-plan-v4")),  // schema
      Some(TextJson(p.network)),  // network
      Some(Num(p.expiresAt)),  // expiresAt
      Some(TextJson(p.ceremonyId)),  // ceremonyId
      Some(Num(p.evmChainId)),  // evmChainId
      Some(SourcesJson(p)),  // sourceShas
      Some(p.derived.bridgeBatch)  // bridgeBatch
    ]
  }

  function SecondPayloadValues(p: Payload): (vs: seq<Option<Json>>)
    ensures |vs| == 8
  {
    [
      Some(p.derived.launcherIds),  // launcherIds
      Some(AddressesJson(p)),  // evmAddresses
      Some(p.derived.puzzleHashes),  // puzzleHashes
      Some(ValidatorsJson(p)),  // validatorSet
      Some(AssetsJson(p)),  // trustedAssets
      Some(AdminJson(p)),  // adminAuthority
      Some(FundingJson(p)),  // fundingCoinIds
      p.identityPolicy  // identityPolicy
    ]
  }

  function ThirdPayloadValues(p: Payload): (vs: seq<Option<Json>>)
    ensures |vs| == 8
  {
    [
      MaybeNum(p.paymentChain),  // paymentChainId
      Some(p.derived.permanentRules),  // permanentRules
      Some(TextJson("solslot-v2-rc23")),  // protocolVersion
      Some(SeedJson(p)),  // solsReserveSeed
      Some(TextJson(p.faucet)),  // faucetPuzzleHash
      Some(KitsJson(p)),  // adminRecoveryKits
      MaybeNum(p.poolPuzzleVersion),  // poolPuzzleVersion
      Some(ParametersJson(p))  // protocolParameters
    ]
  }

  function FourthPayloadValues(p: Payload): (vs: seq<Option<Json>>)
    ensures |vs| == 9
  {
    [
      Some(List(Texts(p.retired))),  // retiredCoordinates
      Some(TextJson(p.governanceKey)),  // governanceBlsPubkey
      Some(DestinationsJson(p)),  // trustedDestinations
      p.activation,  // enrollmentActivation
      Some(TextJson(p.kosKey)),  // kosMintExecutePubkey
      Some(Num(4)),  // sourceManifestVersion
      MaybeNum(p.authorityPuzzleVersion),  // authorityPuzzleVersion
      Some(p.derived.vaultParams),  // canonicalVaultParamsHash
      Some(TextJson(p.manifest))  // recoveryDependencyManifestHash
    ]
  }

  function PayloadKeys(): seq<string> {
    FIRST_PAYLOAD_KEYS + SECOND_PAYLOAD_KEYS + THIRD_PAYLOAD_KEYS + FOURTH_PAYLOAD_KEYS
  }

  function PayloadValues(p: Payload): seq<Option<Json>> {
    FirstPayloadValues(p) + SecondPayloadValues(p) + ThirdPayloadValues(p) + FourthPayloadValues(p)
  }

  /** The payload without its plan hash, with the names and the nesting that the plan has in JSON. */
  function PayloadJson(p: Payload): Json {
    Obj(Fields(PayloadKeys(), PayloadValues(p)))
  }
}
