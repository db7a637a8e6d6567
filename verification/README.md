# Solslot protocol: a verified model

Solslot drives a set of Chia singletons. This project models what the drivers decide and proves properties of it,
for every input and every run. `dafny verify dfyconfig.toml` checks everything.

| modules | what they model |
|---|---|
| `Hashing`, `Clvm`, `Currying`, `Eip712` | CLVM trees, `sha256tree`, integers as atoms, curry and its hash computed from hashes alone |
| `AuthorityState`, `AuthorityMessages`, `Quorum`, `AuthorityProtocol`, `AuthorityRuns`, `AuthoritySteps`, `AuthorityCoins` | the key-change protocol of Authority V3: one authority, three identity vaults and a clock |
| `Ledger`, `Genesis`, `GenesisProofs`, `GenesisLeft` | coins, bundles, conservation of value; the RC23 genesis bundle for every batch size |
| `JsonText`, `Json`, `JsonProofs`, `JsonJoined`, `JsonCanonical`, `Statements` | canonical JSON, its strict parser, the statement and artifact hashes |
| `HexText`, `HexGrammar`, `JsonFields`, `PlanJson`, `PlanJsonProofs`, `PlanPayload`, `PlanBuilder`, `PlanLookup` | the canonical payload of a ceremony plan, its hash, and the plan rebuilt from it |
| `Scanner` | the namespace scanner |
| `Nav`, `NavRuns` | the collection NAV registry and its runs |
| `Roster`, `RosterKeys` | the administrators' roster, its runs, its quorums of slots and of keys |
| `Sorting`, `Settlement`, `Redemption` | stable sorting, largest-remainder settlement, funded redemption plans |
| `Eligibility` | the identity proof query |
| `Sequences`, `Results`, `Spelling` | shared definitions; digits and letters by example |

## Assumptions of the model

- **SHA-256** is an unknown function to 32 bytes (`Hashing.SHA256`). It is never assumed injective. A theorem about
  binding says: the inputs are equal, or two different strings that were really hashed on the way have one digest
  (`Hashing.Clash`, `Clvm.Collision`, `Ledger.SameName`).
- **Compiled puzzles and upstream constructions** are open constants: the authority and identity modules, the MIPS
  member and custody puzzles of a pair of keys, the CAT eve and reserve, the singleton modules. Theorems hold for every
  value of them.
- **Authority V3.** The driver builds the prepare completely. What cancel, complete and the operational action make of
  the state is taken from the authority puzzle of version 4 (`admin_authority_v4_inner.clsp`), from the fields that the
  state carries for them, and from the identity terminal action. A step exists when the driver can build it and the
  puzzles accept it. Signatures and MIPS solutions are assumed to be given by the approvers of the step.
- **Genesis.** A funding coin is spent by an honest faucet wallet: exactly the listed outputs. `Planned` says that the
  plan's batch is the one the planner derives from the bridge coin's id and the plan's own faucet hash; funding coins
  exist before the bundle (`Preexisting`). Spends are lists of outputs, assertions and announcements.
- **JSON.** A string is a sequence of code points with lone surrogates allowed, as in Python; an object is a dictionary
  in insertion order.

## Findings

Each is stated with its exact condition.

- *A lone finish strands the authority.* The timelocked finish member of an intermediate custody asks for the delay and
  its own coin, not for a spend of the authority. A bundle that finishes the vault without completing the authority
  leaves the authority pending for ever, because cancel and complete both name a coin that is gone. A way back exists
  if and only if the committed coin is still live and a version is left (`AuthorityRuns.WayBackExists`,
  `AuthorityRuns.LoneFinishStrands`). So "the authority records what each vault carries" holds in every run in which
  each finish is paired with the authority's completion (`AuthorityRuns.PairedRunsStayLive`) and in general outside the
  pending slot (`AuthorityRuns.RecordsMirrorVaults`).
- *The genesis builder does not compare the plan's faucet hash with the ceremony's.* The bundle (of two or
  more parents) is closed if and only if they agree, the faucet and the reserve seed are not the launcher puzzle, the
  bridge policy is not the faucet, and the SGT eve does not coincide with its change (`GenesisProofs.ClosedIffSound`).
- *The NAV driver and the NAV puzzle insert at opposite ends.* The driver puts a new collection in front, the puzzle at
  the end. The driver's predicted state is the one on chain if and only if the collection was listed or the list was
  empty, and over a run if and only if all updates name one collection (`NavRuns.PredictionHolds`,
  `NavRuns.SidesAgreeIffOneCollection`). The puzzle demands a signature over its own new root, so a signature over the
  message the driver returns fits under the same condition only, and the runs that can be signed with the driver's
  messages are those that name one collection (`NavRuns.SignatureFits`, `NavRuns.SignedRunsNameOneCollection`).
- *The canonical printer is not injective on strings with surrogate pairs.* A high surrogate directly before a low one
  prints like the character the pair encodes, and is parsed as that character. Round trip holds if and only if no string
  has such a pair (`JsonProofs.RoundTripIffClean`, `JsonProofs.UncleanTextHasTwin`). Keys are put in order before the
  pairs are joined, so what prints alike is what is read back alike, not what is equal after joining
  (`JsonJoined.PrintAlikeIff`, `JsonJoined.JoiningFirstPrintsOtherwise`).
- *Some plans that are built cannot be rebuilt from their payload.* Rebuilding needs the pinned recovery manifest, no
  all-zero governance, administrator or validator key, and guardians without blanks inside: the builder reads a
  guardian with a function that skips blanks, so nineteen bytes with blanks pass as a 20-byte address although the error
  message promises twenty (`PlanPayload.RebuildIff`, `PlanPayload.BlankGuardianIsBuiltNotRead`).
- *The roster checks leaves within a record only.* A new slot may repeat the leaves of an old one
  (`Roster.LeavesMayRepeat`), and then one key counts for two slots: a quorum of slots may consist of fewer keys than
  its slots need. Every quorum of keys has separate keys for each of its slots if and only if no leaf is in two
  records, which a run keeps if and only if no addition repeats a leaf (`RosterKeys.KeysCountOnceIff`,
  `RosterKeys.RunKeepsApart`).
- *Quorums that share a slot need not share a key.* A slot with two leaves can be signed for twice with different keys.
  Two sets of keys that sign for a slot always share a leaf if and only if it needs more than half of its leaves. Where
  no leaf is in two records, quorums of a roster and of one it has grown into always share a key if and only if fewer
  slots are divisible in this way than two quorums must share; so do those of a roster and its successor along every
  run that repeats no leaf (`RosterKeys.SlotSharesKeyIff`, `RosterKeys.QuorumsShareKeyIff`,
  `RosterKeys.RunQuorumsShareKeyIff`). A slot needs one leaf to sign and `m_within` of them to remove one of its keys.
  The theorem on one slot covers both. Quorums of keys concern signing; no spend asks for a quorum of slots that each
  remove a key, so for `Removing` those theorems say only what such a quorum would do.
- *Quorums of slots meet up to a bound.* Quorums of a roster and of a larger one always meet if and only if a third of
  the larger is less than the threshold of the smaller; three slots can grow to five (`Roster.QuorumsMeetIff`,
  `Roster.GenesisQuorumsMeet`).
- *A small settlement cannot be funded.* A share below one unit may be paid nothing, and such a plan is refused. Everyone
  is paid if and only if each share is worth a unit or has fewer shares before it in the ranking of remainders than
  there are units left over (`Settlement.PaidIff`, `Redemption.AcceptableIffPayable`).

## Model

| member | source | states |
|---|---|---|
| Clvm.TreeHashBinds | solslot_puzzles/eip712_helpers.py:338-345 | equal tree hashes mean equal trees, or two different strings hashed on the way collide |
| Clvm.FieldsBind | solslot_puzzles/admin_authority_v3_driver.py:1005-1024 | a message that is the tree hash of a list binds every element of the list, or there is a collision |
| Clvm.IntRoundTrip | solslot_puzzles/admin_authority_v3_driver.py:927-958 | reading an integer back from its atom gives the integer, negative or not, for every size |
| Clvm.AtomIsCanonical | solslot_puzzles/admin_authority_v3_driver.py:927-958 | an atom is what its integer is written as exactly when no leading byte can be dropped |
| Currying.UncurryIsInverse | solslot_puzzles/eip712_helpers.py:456-488 | a tree uncurries to a module and arguments exactly when it is their curry, for argument lists of any length |
| Currying.CurryIsPartialApplication | solslot_puzzles/eip712_helpers.py:456-488 | running a curried program runs the module with the arguments put in front of the environment |
| Currying.CurriedValuesHashIsTreeHash | solslot_puzzles/eip712_helpers.py:498-507 | the recursion over argument hashes gives the tree hash of the curried environment, its base case included |
| Currying.CurryHashIsTreeHash | solslot_puzzles/eip712_helpers.py:348-512 | the curry hash from raw bytes is the tree hash of the curried tree, for every module and argument list |
| Currying.TreeHashList | solslot_puzzles/admin_authority_v3_driver.py:491-497 | the reversed loop computes the list hash, for any number of hashes |
| Currying.ListHashIsTreeHash | solslot_puzzles/admin_authority_v3_driver.py:491-497 | the list hash of the elements' hashes is the tree hash of the proper list |
| Currying.SingletonHashIsWrappedTree | solslot_puzzles/admin_authority_v2_driver.py:636-677 | the full puzzle hash from an inner hash is the tree hash of the singleton around any inner puzzle with that hash |
| Currying.SingletonHashBinds | solslot_puzzles/admin_authority_v2_driver.py:636-677 | equal full puzzle hashes mean equal launchers and inner puzzles, or there is a collision |
| Eip712.LeafHashIsPuzzleHash | solslot_puzzles/eip712_helpers.py:393-547 | the leaf hash is refused exactly when the member puzzle is, and otherwise is that puzzle's tree hash |
| Eip712.LeafHashBinds | solslot_puzzles/eip712_helpers.py:393-512 | equal leaf hashes mean equal key, prefix and type hash, or there is a collision |
| AuthorityState.ParseOfMake | solslot_puzzles/admin_authority_v3_driver.py:639-715 | parsing a made inner puzzle gives configuration and state back exactly when delays are the canonical ones and recovery roots are distinct |
| AuthorityState.MakeOfParse | solslot_puzzles/admin_authority_v3_driver.py:892-971 | making the puzzle of a parsed configuration and state gives the parsed tree back exactly when its integers are minimal and its identifiers are not zero, or the module's hash collides |
| AuthorityState.InnerHashBinds | solslot_puzzles/admin_authority_v3_driver.py:639-715 | equal inner puzzle hashes mean equal configuration and state, or there is a collision |
| AuthorityCoins.ValidMeans | solslot_puzzles/admin_authority_v3_driver.py:354-429 | a state is valid exactly when it has three nonzero custodies and a version, and either nothing is pending and all pending fields are zero, or a known kind, a slot, nonzero ids and the delay of the kind are |
| AuthorityCoins.KindsMean | solslot_puzzles/admin_authority_v3_driver.py:65-77 | kinds are 1 to 3; a lost key waits 604,800 seconds, the others 86,400 |
| AuthorityCoins.GenesisPuzzle | solslot_puzzles/admin_authority_v3_driver.py:639-715 | without a state the puzzle is that of the idle state of the three custodies at version 1; custodies given beside a state must be its own |
| AuthorityMessages.PrepareBindingBinds | solslot_puzzles/admin_authority_v3_driver.py:974-1024 | equal prepare bindings mean that all fourteen fields are equal, or there is a collision |
| AuthorityMessages.PrepareMessageBinds | solslot_puzzles/admin_authority_v3_driver.py:1454-1476 | equal prepare messages of two vaults mean one intermediate custody, and one coin, change and manifest unless a lost key is recovered, or there is a collision |
| AuthorityMessages.TerminalMessageBinds | solslot_puzzles/admin_authority_v3_driver.py:1057-1152 | equal cancel or completion messages mean the same action on the same pending change, or there is a collision |
| AuthorityMessages.VetoIsNotCompletion | solslot_puzzles/admin_authority_v3_driver.py:1057-1152 | a cancel message is never a completion message, short of a collision |
| Quorum.OperationalMeaning | solslot_puzzles/admin_authority_v3_driver.py:600-636 | the operational policy is satisfied exactly by slot 0 with slot 1 or slot 2 |
| Quorum.LostRecoveryMeaning | solslot_puzzles/admin_authority_v3_driver.py:600-636 | the recovery policy of a slot is satisfied exactly by both other slots |
| Quorum.MoreApproversNeverHurt | solslot_puzzles/admin_authority_v3_driver.py:600-636 | every m-of-n policy is monotone in the approvers |
| Quorum.SelectionIsAccepted | solslot_puzzles/admin_authority_v3_driver.py:1932-1973 | the approvers the driver selects for a change are records the puzzle accepts and satisfy its policy |
| Quorum.AcceptedRecordsAreSelectable | solslot_puzzles/admin_authority_v4_inner.clsp:293-331 | every pair of approvers the puzzle accepts is one the driver can select |
| Quorum.SelectionMeans | solslot_puzzles/admin_authority_v3_driver.py:1932-1973 | a recovery takes the two others, a coadmin's change that coadmin with the owner, the owner's change the named coadmin, or slot 1 if none is named |
| Quorum.CollectLostProofs | solslot_puzzles/admin_authority_v3_driver.py:1932-1955 | the loop proves exactly the two other slots, each with its own custody |
| Quorum.VerifySignatures | solslot_puzzles/artifact_schema_v4.py:510-556 | an artifact's signatures are accepted exactly when two or three distinct slots sign, each with its own key in well-formed text and accepted by the verifier, and satisfy the owner-plus-one policy; the verifier was then asked about the bytes of the roster's own keys |
| Quorum.SignedIff | solslot_puzzles/artifact_schema_v4.py:510-556 | an entry that writes a 33-byte key and a 65-byte signature counts exactly when the key is the slot's, neither is zero, and the verifier accepts |
| AuthorityRuns.BuiltTransition | solslot_puzzles/admin_authority_v3_driver.py:1243-1605 | a built transition is the commitment of the change, from an idle state, on the custody recorded for the slot; the pending state records the custody and the daily member of the very keys that replace the old ones, and the custody to wait in is the old daily key's with a member that can install only that replacement; messages and binding hash are those of the pending state and the binding it carries |
| AuthorityProtocol.AcceptedKeysReplace | solslot_puzzles/admin_authority_v3_driver.py:1297-1325 | the driver accepts exactly the key changes that replace what their kind allows: the daily key, the recovery key, or the daily key and perhaps the recovery key |
| AuthorityRuns.PuzzleMeetsDriver | solslot_puzzles/admin_authority_v4_inner.clsp:519-704 | the binding and the next state that the driver computes are those that the puzzle computes from its own state and curried delays |
| AuthoritySteps.PrepareIff | solslot_puzzles/admin_authority_v3_driver.py:1243-1605 | a change can be prepared exactly when the state is idle with a version left, the keys fit the kind, the coin is the live one with the custody of the old keys, the ids are not zero and the approvers fit, short of an accident of hashing |
| AuthoritySteps.StepIffEnabled | solslot_puzzles/admin_authority_v4_inner.clsp:483-769 | in every world of the invariant each kind of step exists exactly under its own conditions: cancel where the committed coin is live, completion also after the delay, a lone finish after the delay |
| AuthoritySteps.StepMoves | solslot_puzzles/admin_authority_v4_inner.clsp:408-460 | a step spends the coins of its approvers and of its target, each into its own child at the custody it then carries, and no other |
| AuthorityCoins.ChildCoinIsSingleton | solslot_puzzles/admin_authority_v4_inner.clsp:594-632 | the coin id that driver and puzzle compute is that of the singleton around the custody puzzle, worth 3, 5 or 7 mojos by slot |
| AuthorityCoins.FinishMemberBinds | solslot_puzzles/admin_authority_v3_driver.py:1208-1231 | one finish member installs one custody with one message, amount and delay, or there is a collision |
| AuthorityCoins.CustodyBinds | solslot_puzzles/admin_authority_v3_driver.py:539-597 | one custody hash is one settled custody puzzle, of both keys, in the slot, under the authority, or there is a collision |
| AuthorityCoins.IntermediateBinds | solslot_puzzles/admin_authority_v3_driver.py:1389-1419 | one intermediate hash is one waiting custody puzzle, of the old daily key and the finish member, or there is a collision |
| AuthorityRuns.PrepareEffect | solslot_puzzles/admin_authority_v3_driver.py:1510-1555 | a prepare enters a valid pending state one version later that records the change and its keys; its coin is the vault's live coin, the old custody is kept for the veto, the other vaults keep theirs |
| AuthorityRuns.StepKeepsInvariant | solslot_puzzles/admin_authority_v3_driver.py:354-429 | every step keeps the joint invariant: the state passes validation, one slot at most is pending, settled vaults carry what is recorded; the configuration never changes |
| AuthorityRuns.GenesisSatisfiesInvariant | solslot_puzzles/admin_authority_v3_driver.py:718-811 | the world after genesis satisfies the joint invariant |
| AuthorityRuns.RunKeepsInvariant | solslot_puzzles/admin_authority_v3_driver.py:354-429 | over every run the invariant holds, launchers, roots, manifest and puzzle version are the first ones, and the version counts the authority's spends |
| AuthorityRuns.RecordsMirrorVaults | solslot_puzzles/admin_authority_v3_driver.py:1279-1289 | in every reachable world the custody recorded for a slot is the vault's inner hash, except in the pending slot of a stranded change; there live coin and custody go together |
| AuthorityRuns.PairedRunsStayLive | solslot_puzzles/admin_authority_v3_driver.py:1417-1438 | in runs without a lone finish all three records are the vaults' custodies and the pending coin is the vault's live coin |
| AuthorityRuns.PendingFreezes | solslot_puzzles/admin_authority_v3_driver.py:2060-2062 | while a change is pending there is no operational action and no second prepare |
| AuthorityRuns.PendingWasOpened | solslot_puzzles/admin_authority_v3_driver.py:1510-1534 | in every reachable world a pending change was opened by a prepare, with no authority spend since, and records that prepare's kind, slot, intent, old custody, new custody and the member of the very key it named |
| AuthorityRuns.CompletionWaits | solslot_puzzles/admin_authority_v4_inner.clsp:753-769 | a completion comes after its own prepare, with only time between, and at least 86,400 or 604,800 seconds of it by kind |
| AuthorityRuns.VetoRestores | solslot_puzzles/admin_authority_v4_inner.clsp:706-751 | prepare, wait, cancel: all three custodies are as before, in the authority and in the vaults |
| AuthorityRuns.CompletionInstalls | solslot_puzzles/admin_authority_v4_inner.clsp:753-769 | prepare, wait, complete: exactly one custody changes, to that of the committed keys |
| AuthorityRuns.BothWaysBack | solslot_puzzles/admin_authority_v3_driver.py:2206-2231 | from a live pending world cancel leads to idle at once and completion does after the delay |
| AuthorityRuns.WayBackExists | solslot_puzzles/admin_identity_terminal_action_v1.clsp:10-46 | a pending world can return to idle exactly when its committed coin is still live and a version is left |
| AuthorityRuns.LoneFinishStrands | solslot_puzzles/admin_identity_terminal_action_v1.clsp:10-46 | the finish without the authority is possible as soon as the delay is over, and then no run leads back to idle |
| AuthorityRuns.StuckForever | solslot_puzzles/admin_authority_v4_inner.clsp:706-769 | in a stranded world the authority's state never changes again |
| AuthorityRuns.BindingsNeverRepeat | solslot_puzzles/admin_authority_v3_driver.py:1005-1024 | two prepares of one run have different bindings, or there is a collision |
| AuthorityRuns.SuccessorIsDriversPuzzle | solslot_puzzles/admin_authority_v4_inner.clsp:163-191 | the successor hash the puzzle computes from argument hashes is the hash of the puzzle the driver makes for that state |
| Ledger.CoinPreimageInjective | solslot_puzzles/genesis_ceremony.py:661-674 | the string hashed to a coin id determines parent, puzzle hash and amount |
| Ledger.FeeIsDifference | solslot_puzzles/genesis_ceremony_rc23.py:1228-1247 | the fee of a bundle, summed spend by spend, is what its coins are worth less what they create |
| Ledger.ClosedConserves | solslot_puzzles/genesis_ceremony_rc23.py:1077-1286 | in every closed bundle the outside coins are worth the coins left behind and the fee |
| Ledger.MadeOnce | solslot_puzzles/genesis_ceremony_rc23.py:1077-1286 | no coin is made twice when each spend's outputs differ and the spent coins' ids do |
| Genesis.AppendSingletons | solslot_puzzles/genesis_ceremony_rc23.py:1148-1180 | each plain singleton gets its funding and launcher spend, and is refused exactly when the derived launcher id or the amount does not fit |
| Genesis.AppendLaunchers | solslot_puzzles/genesis_ceremony_rc23.py:1197-1219 | authority and identity launchers are spent and asserted in order, or refused exactly when a launcher id does not fit |
| Genesis.AppendParents | solslot_puzzles/genesis_ceremony_rc23.py:1258-1286 | each bridge parent is spent, or refused exactly when a parent's or bridge coin's lineage does not fit |
| Genesis.BuildBundle | solslot_puzzles/genesis_ceremony_rc23.py:1060-1299 | the builder accepts exactly the inputs that pass all checks, and its bundle has 21 spends and one for each bridge parent |
| GenesisProofs.PlanFixesFunding | solslot_puzzles/genesis_ceremony_rc23.py:1067-1092 | accepted funding is nine different coins, and one plan accepts one such nine only, or two coins share an id |
| GenesisProofs.SoundBundleIsClosed | solslot_puzzles/genesis_ceremony_rc23.py:1094-1291 | for every batch size, spent coins are distinct, each is a funding coin or made in the bundle, and no coin is made twice, or two spent coins share an id |
| GenesisProofs.ForeignFaucetIsOpen | solslot_puzzles/genesis_ceremony_rc23.py:1069-1075 | with another faucet in the plan the bundle spends a coin nobody makes |
| GenesisProofs.ClosedIffSound | solslot_puzzles/genesis_ceremony_rc23.py:1060-1299 | a built bundle of two or more parents is closed exactly when the hashes the builder does not compare fit, or two spent coins share an id |
| GenesisProofs.BundleOutputs | solslot_puzzles/genesis_ceremony_rc23.py:1094-1286 | no spend of the bundle makes one coin twice when faucet, seed, policy and eve hashes fit and, for batches of two or more, only then |
| GenesisProofs.BundleCostsBuffer | solslot_puzzles/genesis_ceremony_rc23.py:1228-1256 | for every batch size and all accepted amounts the fee is exactly the one-mojo buffer |
| GenesisProofs.GenesisConserves | solslot_puzzles/genesis_ceremony_rc23.py:1077-1286 | the nine funding coins are worth the surviving coins and the buffer |
| GenesisProofs.BridgesAreLeft | solslot_puzzles/genesis_ceremony_rc23.py:1258-1286 | every planned bridge coin is made by the bundle and not spent by it |
| GenesisProofs.BundleMeetsAssertions | solslot_puzzles/genesis_ceremony.py:661-695 | every launcher announcement asserted by a signed funding spend is made in the bundle |
| GenesisProofs.LaunchersMakeSurfaces | solslot_puzzles/genesis_ceremony.py:661-674 | a launcher spend makes one coin, at the planned full puzzle hash, under the planned launcher id |
| GenesisProofs.LauncherMessageBinds | solslot_puzzles/genesis_ceremony.py:661-674 | a launcher announcement binds the singleton puzzle and its amount, or there is a collision |
| GenesisLeft.BundleLeaves | solslot_puzzles/genesis_ceremony_rc23.py:1028-1299 | a sound bundle of any size leaves exactly the whole supply at the SGT puzzle, the seed under its planned id, the eleven singletons at their planned ids, puzzles and amounts, the bridge coins, and change for the faucet, each once, or two coins share an id |
| GenesisLeft.AcceptedBundleLeaves | solslot_puzzles/genesis_ceremony_rc23.py:1094-1230 | every accepted bundle, sound or not, leaves the supply at the SGT puzzle and the eleven singletons, and the seed exactly when its puzzle is not the launcher, or two coins share an id |
| GenesisLeft.IdentityAmountsAgree | solslot_puzzles/genesis_ceremony_rc23.py:1182-1219 | the identity singletons are launched with the amounts that the key-change protocol expects of their slots |
| GenesisProofs.BatchFundingClosedForm | solslot_puzzles/genesis_ceremony_rc23.py:78-94 | the batch coin is n(n+1)/2 + 2 for every n, and 530 for the release's 32 |
| JsonText.CharsRoundTrip | solslot_puzzles/identity_deployment_amendment.py:82-89 | a clean string is read back from its escaped text exactly up to its own closing quote, whatever follows |
| JsonText.ParsedCharsAreClean | solslot_puzzles/identity_deployment_amendment.py:102-106 | no parsed string has a high surrogate before a low one, in any text |
| JsonText.IntTextRoundTrip | solslot_puzzles/identity_deployment_amendment.py:82-106 | every integer is read back from its digits, whatever follows |
| Json.NoDuplicatePairs | solslot_puzzles/identity_deployment_amendment.py:92-98 | the pairs are accepted, in their order, exactly when no key repeats |
| JsonProofs.ValueRoundTrip | solslot_puzzles/identity_deployment_amendment.py:82-106 | a clean value is read back exactly and the text after it is left, for every nesting, unless a key repeats inside; then it is refused |
| JsonProofs.ParsedIsCleanAndProper | solslot_puzzles/identity_deployment_amendment.py:92-106 | whatever the parser accepts has distinct keys and clean strings |
| JsonProofs.RoundTripIffClean | solslot_puzzles/identity_deployment_amendment.py:82-106 | parsing a printed value gives it back, keys in order, exactly when it is clean |
| JsonProofs.PrintIsInjective | solslot_puzzles/identity_deployment_amendment.py:82-89 | clean values print alike exactly when they are the same up to the order of keys |
| JsonProofs.UncleanTextHasTwin | solslot_puzzles/identity_deployment_amendment.py:82-89 | every string with a surrogate pair prints like a different string |
| JsonJoined.PrintedIsReadBack | solslot_puzzles/identity_deployment_amendment.py:82-106 | every printed value is read back as its ordered form with surrogates joined, or refused exactly when joining makes two keys equal |
| JsonJoined.PrintAlikeIff | solslot_puzzles/identity_deployment_amendment.py:82-89 | values print alike exactly when they are read back alike, if the first one's keys stay distinct |
| JsonJoined.PrintAcceptedIff | solslot_puzzles/identity_deployment_amendment.py:101-112 | the strict parser accepts the print of an object exactly when its keys are still in strict order after joining |
| JsonJoined.CleanKeysReadBack | solslot_puzzles/identity_deployment_amendment.py:82-106 | where all keys are clean, joining surrogates and ordering keys may be done in either order |
| JsonJoined.JoiningFirstPrintsOtherwise | solslot_puzzles/identity_deployment_amendment.py:82-89 | an object and its joined form, equal after joining, that print differently: keys are ordered before surrogates are joined |
| JsonProofs.PrintIgnoresInsertionOrder | solslot_puzzles/identity_deployment_amendment.py:82-89 | dictionaries with the same entries print alike, whatever order the entries came in |
| JsonProofs.ParseCanonicalStatement | solslot_puzzles/identity_deployment_amendment.py:101-112 | accepts exactly the texts the printer writes for clean objects, and yields the object in key order |
| JsonProofs.CanonicalIsOneToOne | solslot_puzzles/identity_deployment_amendment.py:101-112 | one accepted text has one value and one value has one accepted text |
| JsonCanonical.PrintedIffBest | solslot_puzzles/identity_deployment_amendment.py:82-89 | the print of a clean value is, of all printable ASCII texts that are read as its ordered form, the shortest, and of those the last in byte order; no other text is |
| JsonCanonical.CanonicalIffBest | solslot_puzzles/identity_deployment_amendment.py:101-112 | the strict parser accepts exactly the texts that are preferred in this sense |
| JsonCanonical.WrittenIffShortestLower | solslot_puzzles/identity_deployment_amendment.py:82-89 | of the printable texts that are read as a clean string exactly the shortest one with lower-case hexadecimal digits is written |
| JsonCanonical.UnitIsRead | solslot_puzzles/identity_deployment_amendment.py:101-106 | `\u` and four digits out of 0123456789abcdef, in either case, are read as the number they write |
| JsonCanonical.WordsMean | solslot_puzzles/identity_deployment_amendment.py:82-89 | words, empty structures and signs are written as in RFC 8259 |
| JsonCanonical.ArrayMeans | solslot_puzzles/identity_deployment_amendment.py:82-89 | arrays are written with brackets and commas and no blanks |
| JsonCanonical.ObjectMeans | solslot_puzzles/identity_deployment_amendment.py:82-89 | objects are written with braces, quoted keys, colons and commas and no blanks |
| Statements.StatementHashBinds | solslot_puzzles/identity_deployment_amendment.py:115-117 | statements with one amendment hash are the same up to key order, or their texts collide; and conversely |
| Statements.ArtifactHashSurvivesSigning | solslot_puzzles/artifact_schema_v3.py:155-161 | setting artifactHash and attaching signatures leave the artifact hash as it was |
| Statements.ArtifactHashBinds | solslot_puzzles/artifact_schema_v3.py:155-161 | artifacts have one hash exactly when they agree on every other key, or their texts collide |
| HexText.HexTextRoundTrip | solslot_puzzles/artifact_schema_v3.py:92-128 | reading back written bytes gives them, and refuses exactly the all-zero ones |
| HexGrammar.ReadsAsIntMeans | solslot_puzzles/artifact_schema_v3.py:106-115 | a text reads as a number exactly when it is a sign, a prefix and digits with single underscores between them, blanks around |
| HexGrammar.DigitMeans | solslot_puzzles/artifact_schema_v3.py:92-128 | a digit is worth its place in 0123456789abcdef, in either case |
| HexGrammar.LowerMeans | solslot_puzzles/artifact_schema_v3.py:99-103 | lower-casing turns each capital into its small letter and keeps everything else |
| PlanPayload.NormalizeTwice | solslot_puzzles/genesis_ceremony.py:77-108 | normalising normalised inputs changes nothing |
| PlanBuilder.BuildPlan | solslot_puzzles/genesis_ceremony_rc23.py:618-750 | the run of normalising loops and checks builds exactly the specified plan, and refuses exactly the inputs that the specification refuses |
| PlanBuilder.NormalizeSourceShas | solslot_puzzles/genesis_ceremony.py:77-89 | the loop accepts exactly the nine required commits of forty digits and returns them in lower case |
| PlanBuilder.NormalizeEvmAddresses | solslot_puzzles/genesis_ceremony.py:92-108 | the loop accepts exactly the three required addresses, sound and different, and returns them in lower case |
| PlanPayload.ReadInputsOfPlan | solslot_puzzles/artifact_schema_v4.py:202-370 | a payload gives the normalised inputs back, omitted defaults and optional blocks included, exactly when no key is zero and no guardian has blanks inside |
| PlanPayload.RebuildIff | solslot_puzzles/artifact_schema_v4.py:202-370 | a built plan is rebuilt from its payload, with the same payload and plan hash, exactly when it has the pinned manifest, no zero key and no guardian with blanks |
| PlanPayload.ReconstructingPayloadsAreBuilt | solslot_puzzles/artifact_schema_v4.py:415-420 | the payloads an artifact may carry are exactly those of built plans with the pinned manifest and readable inputs |
| PlanPayload.PayloadIsUnambiguous | solslot_puzzles/genesis_ceremony_rc23.py:262-577 | such a payload stands for one plan: omitting defaults loses nothing |
| PlanJsonProofs.PayloadBinds | solslot_puzzles/genesis_ceremony_rc23.py:262-577 | the JSON objects of two payloads, with the source's keys and nesting, are the same up to key order exactly when all the payloads' fields are, omitted keys included |
| PlanPayload.PlanHashBinds | solslot_puzzles/genesis_ceremony_rc23.py:580-591 | built plans have one plan hash exactly when they have the same inputs and derived values, up to key order inside the optional blocks and the derived values, or the texts of their payloads collide |
| PlanLookup.PlanIsWritten | solslot_puzzles/genesis_ceremony_rc23.py:262-577 | in the text that is hashed the plan's ids, keys, network and versions stand under their own names, the defaults left out |
| PlanLookup.FundingIsWritten | solslot_puzzles/genesis_ceremony_rc23.py:288-291 | each of the nine funding coins stands under its own name |
| PlanLookup.FourthPayloadAt | solslot_puzzles/genesis_ceremony_rc23.py:262-577 | what the payload object has under governanceBlsPubkey, kosMintExecutePubkey, retiredCoordinates and six more keys |
| PlanLookup.DestinationsAt | solslot_puzzles/genesis_ceremony_rc23.py:536-552 | each treasury and reward destination stands under its own name |
| PlanLookup.ParametersAt | solslot_puzzles/genesis_ceremony_rc23.py:383-396 | each protocol parameter stands under its own name |
| PlanLookup.SourcesAt | solslot_puzzles/genesis_ceremony_rc23.py:276-280 | each of the nine source commits stands under its own repository |
| PlanLookup.AddressesAt | solslot_puzzles/genesis_ceremony_rc23.py:276-281 | each contract address stands under its own contract |
| PlanLookup.KitAt | solslot_puzzles/genesis_ceremony_rc23.py:499-511 | a recovery kit stands with its slot, revision, guardian, keys and drill under their names |
| PlanPayload.BlankGuardianIsBuiltNotRead | solslot_puzzles/genesis_ceremony_rc23.py:174-201 | a guardian of nineteen bytes with blanks passes the builder's check and fails the rebuild's |
| Scanner.ContainsForbiddenRaw | scripts/check_namespace.py:37-45 | finds the name exactly when some window of seven bytes, lower-cased, has the digest |
| Scanner.AlignedHits | scripts/check_namespace.py:52-60 | one alignment of a run finds exactly the hits at even distance from its start; dropping an odd last digit loses nothing |
| Scanner.RunContainsForbidden | scripts/check_namespace.py:50-60 | both alignments of a run find exactly the hits inside it |
| Scanner.ContainsForbidden | scripts/check_namespace.py:48-61 | finds exactly what a naive search over all positions finds: seven bytes in any case with the digest, or fourteen digits that write such bytes |
| Scanner.DecodesIffWrites | scripts/check_namespace.py:50-60 | digits decode to exactly the bytes they write, each byte two places of 0123456789abcdef in either case |
| Scanner.HitInAnyCase | scripts/check_namespace.py:37-45 | changing the case of letters changes no hit, and without capitals a hit is a string with the digest |
| Nav.NormaliseNavEntries | solslot_puzzles/collection_nav_registry_driver.py:47-62 | accepts exactly the lists with 32-byte, distinct ids and positive uint64 values, and returns them unchanged |
| Nav.UpsertNavEntry | solslot_puzzles/collection_nav_registry_driver.py:77-92 | accepts exactly normal lists and good arguments, and returns the upserted list |
| Nav.NavValueForCollection | solslot_puzzles/collection_nav_registry_driver.py:95-104 | succeeds exactly for listed collections, with the value the list maps them to |
| Nav.UpsertActs | solslot_puzzles/collection_nav_registry_driver.py:77-92 | an upsert keeps the list normal and its order, puts a new collection first, and changes the map at one key |
| Nav.PuzzleUpsertActs | solslot_puzzles/collection_nav_registry_inner.clsp:74-79 | the puzzle's upsert keeps the list normal and changes the map at the same key |
| Nav.DriverMeetsPuzzle | solslot_puzzles/collection_nav_registry_inner.clsp:74-79 | driver and puzzle compute one list exactly when the collection is listed or the list is empty |
| Nav.NavRootBinds | solslot_puzzles/collection_nav_registry_driver.py:65-71 | one root means one list, or there is a collision |
| Nav.InnerPuzzleHashBinds | solslot_puzzles/collection_nav_registry_driver.py:219-248 | one inner puzzle hash means one registry state, or there is a collision |
| Nav.BuildNavUpdate | solslot_puzzles/collection_nav_registry_driver.py:274-318 | built exactly when the presented list has the state's root and the arguments are good; chains old root to new root at the next version |
| Nav.BuildNavRead | solslot_puzzles/collection_nav_registry_driver.py:321-362 | built exactly when the presented list has the state's root and lists the collection; reports its value and recreates the state |
| NavRuns.PlayActsAsMap | solslot_puzzles/collection_nav_registry_driver.py:77-104 | over every run of updates the list has no duplicates and looks up as a map of last values does, on either side |
| NavRuns.KeyOrder | solslot_puzzles/collection_nav_registry_driver.py:77-92 | the driver's keys stand in reverse order of first insertion, the puzzle's in order of first insertion |
| NavRuns.SidesAgreeIffOneCollection | solslot_puzzles/collection_nav_registry_inner.clsp:74-79 | driver and puzzle hold one list after a run exactly when all its updates name one collection |
| NavRuns.RunTracksList | solslot_puzzles/collection_nav_registry_inner.clsp:109-168 | over every run of updates and reads, of the coins the puzzle creates as of the states the driver predicts, the version counts the updates and the root is that of the list they make, or a different list with one root was presented |
| NavRuns.StepIff | solslot_puzzles/collection_nav_registry_inner.clsp:109-168 | an event is possible exactly when the list is the registry's, the arguments are good and the version is in range: not negative for the driver, 64 bits for the puzzle |
| NavRuns.ReadReportsLastValue | solslot_puzzles/collection_nav_registry_inner.clsp:123-141 | after every such run read evidence reports the last value set for the collection and leaves the state, or a different list with one root was presented |
| NavRuns.NavMessageBinds | solslot_puzzles/collection_nav_registry_driver.py:107-132 | an update message binds collection, value, both roots and version, or there is a collision |
| NavRuns.EvidenceIsNoUpdate | solslot_puzzles/collection_nav_registry_driver.py:135-157 | evidence cannot stand for an update, short of a collision |
| NavRuns.PredictionHolds | solslot_puzzles/collection_nav_registry_inner.clsp:142-168 | the state the driver predicts is the one the puzzle creates exactly when the collection was listed or the list was empty; otherwise the returned list is refused next time |
| NavRuns.SignatureFits | solslot_puzzles/collection_nav_registry_driver.py:291-300 | the message the driver hands out to be signed is the one the puzzle demands a signature over exactly when the collection was listed or the list was empty, or there is a collision |
| NavRuns.SignedRunsNameOneCollection | solslot_puzzles/collection_nav_registry_inner.clsp:142-168 | the runs on chain from the empty registry that can be signed with the driver's messages are exactly those that name one collection, or there is a collision |
| Roster.ValidateAdminRecord | solslot_puzzles/admin_authority_v2_driver.py:474-496 | accepts exactly the records with distinct 32-byte leaves within the limit and a quorum within the leaves |
| Roster.BuildSlotAddPreview | solslot_puzzles/admin_authority_v2_driver.py:408-471 | accepts exactly the next contiguous slot of a valid roster below its maximum at the next version; previews the appended roster and its threshold |
| Roster.RunKeepsRoster | solslot_puzzles/admin_authority_v2_driver.py:408-471 | over every run slots stay 0..n-1, earlier records are a prefix, the maximum holds, and the version counts the additions |
| Roster.QuorumsShare | solslot_puzzles/admin_authority_v2_driver.py:402-405 | two quorums share at least as many slots as their thresholds exceed the larger roster |
| Roster.QuorumsMeetIff | solslot_puzzles/admin_authority_v2_driver.py:402-405 | every quorum of a roster meets every quorum of a larger one exactly when a third of the larger is less than the smaller's threshold |
| Roster.SuccessiveQuorumsMeet | solslot_puzzles/admin_authority_v2_driver.py:402-405 | quorums of one roster, of successive rosters, and of rosters less than twice as large always meet |
| Roster.QuorumsMeetAlongRuns | solslot_puzzles/admin_authority_v2_driver.py:402-471 | along every run a quorum meets every quorum of its own roster and of the next |
| Roster.GenesisQuorumsMeet | solslot_puzzles/admin_authority_v2_driver.py:241-244 | the three slots' threshold is two, and their quorums meet those of m slots exactly up to five |
| Roster.LeavesMayRepeat | solslot_puzzles/admin_authority_v2_driver.py:437-452 | an accepted addition stays accepted when its leaves are replaced by those of the first slot |
| RosterKeys.AdditionKeepsApart | solslot_puzzles/admin_authority_v2_driver.py:437-454 | after an addition no leaf is in two records exactly when none was before and the new record repeats none |
| RosterKeys.RunKeepsApart | solslot_puzzles/admin_authority_v2_driver.py:408-471 | after every run no leaf is in two records exactly when none was at the start and no addition repeated one |
| RosterKeys.KeysCountOnceIff | solslot_puzzles/admin_authority_v2_inner.clsp:5-8 | every quorum of keys has separate keys for each of its slots, and as many as its slots need together, exactly when no leaf is in two records |
| RosterKeys.SlotSharesKeyIff | solslot_puzzles/admin_authority_v2_inner.clsp:46-52 | any two sets of keys that sign for a slot share one of its leaves exactly when the slot needs more than half of them |
| RosterKeys.QuorumsShareKey | solslot_puzzles/admin_authority_v2_driver.py:402-405 | key quorums of a roster and of one it has grown into share a key when the slots that need at most half of their leaves are fewer than the slots the quorums must share |
| RosterKeys.QuorumsShareKeyIff | solslot_puzzles/admin_authority_v2_driver.py:402-405 | where no leaf is in two records, they always share a key only then |
| RosterKeys.RunQuorumsShareKeyIff | solslot_puzzles/admin_authority_v2_driver.py:402-471 | along every run that repeats no leaf, key quorums of a roster and of its successor always share a key exactly when the divisible slots are fewer than the slots two such quorums must share |
| RosterKeys.SingleLeavesShareKeys | solslot_puzzles/admin_authority_v2_driver.py:240-244 | with one leaf a slot, as after the ceremony, quorums that must share a slot share a key |
| Roster.AdminsHashBinds | solslot_puzzles/admin_authority_v2_driver.py:295-297 | one roster hash means one roster, or there is a collision |
| Roster.StateHashBinds | solslot_puzzles/admin_authority_v2_driver.py:309-325 | one state hash means one policy root, roster, list of pending operations and version, or there is a collision |
| Roster.PendingOpsHashBinds | solslot_puzzles/admin_authority_v2_driver.py:300-306 | one hash of pending operations means one list of them, or there is a collision |
| Settlement.AllocateSettlement | solslot_puzzles/sols_economics_v3.py:371-421 | settles exactly the valid shares: everything is paid, nobody is off by a unit, and rounding up follows the remainders |
| Settlement.SettlementIsNearest | solslot_puzzles/sols_economics_v3.py:391-421 | among all ways to pay the total to the shares in whole units the settlement has the least sum of distances from the exact shares |
| Settlement.LargestRemaindersRoundUp | solslot_puzzles/sols_economics_v3.py:405-411 | of two shares the one that is rounded up has the larger remainder, or the same and the smaller id |
| Settlement.OffByLessThanAUnit | solslot_puzzles/sols_economics_v3.py:391-421 | no payment is off its exact share by a unit |
| Sorting.LessMeans | solslot_puzzles/sols_economics_v3.py:406-409 | lexicographic order is decided at the first place where two strings differ, and a prefix comes first |
| Settlement.LeftoverIsSmall | solslot_puzzles/sols_economics_v3.py:391-405 | what rounding down leaves over is less than one unit a share |
| Settlement.SettlementIsUnique | solslot_puzzles/sols_economics_v3.py:391-421 | these rules leave one settlement |
| Settlement.FrontIffRank | solslot_puzzles/sols_economics_v3.py:405-411 | a share gets a unit more exactly when fewer shares stand before it in remainder and id than there are units left over |
| Settlement.PaidIff | solslot_puzzles/sols_economics_v3.py:391-421 | a settlement pays everyone exactly when every share is worth a unit or gets one of the units left over |
| Settlement.SettledInAnyOrder | solslot_puzzles/sols_economics_v3.py:391-421 | a reordered settlement is a settlement |
| Redemption.CanonicalAllocations | solslot_puzzles/funded_redemption_v1.py:91-109 | accepts exactly the valid, unique allocations of a million in all, in any order, and returns their strictly increasing permutation |
| Redemption.CanonicalIsUnique | solslot_puzzles/funded_redemption_v1.py:91-109 | there is one strictly increasing permutation |
| Redemption.AcceptableInAnyOrder | solslot_puzzles/funded_redemption_v1.py:91-109 | acceptance does not depend on the order of the input |
| Redemption.RootIgnoresOrderOnly | solslot_puzzles/funded_redemption_v1.py:112-120 | acceptable inputs have one root exactly when they are permutations of each other, or there is a collision |
| Redemption.ValidatePlan | solslot_puzzles/funded_redemption_v1.py:131-150 | a plan is accepted exactly when its allocations are acceptable and pay the funded total |
| Redemption.BuildPlan | solslot_puzzles/funded_redemption_v1.py:157-191 | built exactly for payable settlements; its payments are the settlement of the shares, with their commitments, in order of deeds |
| Redemption.AcceptableIffPayable | solslot_puzzles/funded_redemption_v1.py:157-191 | a settlement passes the plan's checks exactly when ids and commitments are sound, the total fits, and every share is worth a unit or ranks among the units left over |
| Redemption.PlanIgnoresShareOrder | solslot_puzzles/funded_redemption_v1.py:157-191 | the same shares in another order give the same allocations |
| Redemption.LargeTotalsPayEveryone | solslot_puzzles/funded_redemption_v1.py:157-191 | everyone is paid where every exact share is worth a unit |
| Eligibility.RequireEligibilityInputs | solslot_puzzles/eligibility_policy.py:41-65 | accepts exactly an age record and a sanctions record, in either order, and never reads past the end |
| Eligibility.NextRecordIsGood | solslot_puzzles/eligibility_policy.py:47-62 | within such a query every record read is whole, good and of a new kind |

## Left out

- AuthorityProtocol.Step: MIPS reveals, Merkle proofs and signatures are not modelled; an approval is the approving vault's continuation with its recorded custody.
- AuthorityProtocol.BuildTransition: the delegated puzzles and solutions of the transition are left to the puzzles' conditions; coin ids, custody hashes, binding, the completion, cancel and prepare messages, finish member and pending state are modelled.
- AuthorityRuns.BuiltTransition: says nothing of the delegated puzzles around these messages, which the transition also carries.
- AuthorityRuns.GenesisSatisfiesInvariant: distinct launchers and roots and nonzero custodies are required; the source's own checks refuse other configurations, and its puzzles derive them from coins and keys.
- AuthorityRuns.SuccessorIsDriversPuzzle: covers authority puzzle version 4; version 3 of the puzzle is not modelled beyond its parser.
- AuthorityState.Resolve: the source compares the supplied custody hashes with the state's when both are given; that is modelled, but the exact error texts are shortened.
- Genesis.BuildBundle: signatures, CAT lineage and the puzzle reveals of the spends are not modelled; the batch size is a parameter, fixed to 32 by the source.
- Genesis.Funding: the checks of the plan itself (`verify_rc23_genesis_ceremony_plan`) other than those on funding ids are assumed to have passed.
- GenesisProofs.ClosedIffSound: the converse is stated for batches of two or more; in smaller ones no parent has change, so not every hash needs to fit.
- Json.ParseValue: floats and the limits on nesting and on the digits of an integer are not modelled; a number with fraction or exponent is refused, where the source accepts one that its own printer would write.
- JsonProofs.ParseCanonicalStatement: the same holds of it; numbers with fraction or exponent are refused.
- Json.ParseDocument: bytes that are not ASCII are refused at once; the source may decode them first, but its printer never writes them.
- PlanPayload.Build: launcher ids, puzzle hashes, roots and the checks made in other modules are one open function of the normalised inputs.
- PlanJson.PayloadJson: launcher ids, puzzle hashes, permanent rules, the bridge batch and the statutes, pool and identity values come from other modules; each stands in the source's place as one open value, and what it says is not part of this model.
- HexText.Lower: ASCII letters only; digits and blanks of other scripts, which `int` also reads, are not modelled.
- Roster.PendingOpsHash: the source's constant for the empty list is taken to be the tree hash of nil.
- Roster.BuildSlotAddPreview: the key-add, veto and removal spends of Authority V2 are decided by its puzzle and left out.
- RosterKeys.KeyQuorum: a key is identified with its leaf, the hash of its member puzzle.
- Settlement.AllocateSettlement: deed ids are ordered as bytes; the source orders their hexadecimal text, which is the same order.
- Redemption.BuildPlan: the two dictionaries are a list of shares and a map of commitments; offers and CAT spends are left out.
- Statements.StatementHashBinds: the field checks of amendment statements (`validate_statement_shape`) and of artifacts are left out.
- Scanner.ContainsForbidden: walking archives and tracked files is left out.
- `compute_launch_outputs` and `build_genesis_eip712_admin_quorum` of Authority V2 only assemble hashes that are modelled here.
- The mint-proposal transitions, enrollment, inventory activation, vouchers, swaps and purchases are left out: field checks and packing of results of puzzles that are not part of this model.
- The RC22 and V2 bundle builders are superseded by RC23 and left out.
- Statutes, pool economics other than the settlement, and protocol deployment are not part of this model.
- Key and signature mathematics (secp256k1, BLS), Keccak, caches and thread affinity are left out.
