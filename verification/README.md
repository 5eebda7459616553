# Stellar IBC: a verified model

A Dafny model of the IBC v2 stack that connects Stellar (Soroban) to other chains: the router
contract and its packet lifecycle, the packet and acknowledgement commitments, the depth-64 sparse
Merkle tree with its proof pipeline to the 08-wasm light client, the gateway's state tracker, the
ICS-20 transfer application, and the light clients that the router drives.
`dafny verify dfyconfig.toml` checks the whole project.

## How it is organised

| files | what they hold |
|---|---|
| `Prelude`, `Paths`, `Commitments`, `Layouts` | bytes and digests, provable store keys, packet and acknowledgement commitments with computed collisions, and every byte layout position by position |
| `MerkleTree`, `Smt`, `ProofWire`, `WasmClient`, `ProofPipeline`, `StoreProofs`, `HeaderTrust`, `WasmSoundness` | the dense tree, the sparse `Smt` class, the proof format, the wasm client, the three together, from accepted headers to trusted roots, and the client as a sound light client of the two-chain model |
| `StateTracker`, `TrackerRuns`, `LedgerMirror` | the gateway's cumulative replay, one question at a time, over whole sequences, and against the ledger's own contract data |
| `ClientIds`, `Router`, `RouterRuns`, `Settleable`, `Receiving`, `Registrations`, `RouterContract`, `Scenarios` | the router as a transition function, what every run keeps, exactly when packets are sent, received and settled, where registrations come from, the contract class over its byte store, and concrete runs |
| `TwoChains`, `PacketSafety`, `SharedDestination` | two routers, their blocks and an arbitrary relayer; a run with two source clients for one destination client |
| `Transfer`, `Escrow`, `EscrowRuns`, `DailyCap`, `TransferContract` | the transfer application, escrow over its runs, the cap, and the contract class |
| `TwoBridges`, `Credits`, `Backing`, `Orders`, `Payouts`, `ForeignCredits` | two chains with the application on both: who pays and who is paid, what one credits, and exactly when the other holds it in escrow |
| `Attestation`, `Tendermint`, `ClientUpdates`, `ClientTruth`, `ClientRuns`, `TenderConsensus` | two light clients, what they accept and on whose word, alone and driven by the router's `update_client` |

Conventions. SHA-256 and Ed25519 are parameters: every statement holds for every hash function, and
no injectivity is assumed anywhere. Where a claim rests on the hash, it is stated as "the claim holds,
or here is a collision or a preimage of the all-zero digest", with the collision given by a function of
the values at hand. A panic is an error result that leaves the state as it was. Code that updates
storage is a class whose methods are proved against a transition function on values; the run theorems
are about that function.

Hypotheses, each written into the statement that needs it:

- Two-chain statements (`TwoChains.Legal`): a light client in a chain's `honest` set accepts only what
  the peer's closed blocks hold or lack; the counterparty registered for it names the peer's store
  prefix; chain time never goes back. Nothing is assumed of other clients or of the relayer.
- Escrow statements (`Escrow.Permitted`, `Transfer.Inverts`): the codec used for refunds inverts the
  codec used for sends, inbound amounts are not negative, and nobody acts as the application itself.
- State-tracker runs: questions come for ledgers in non-decreasing order; failed ones may be retried.
- Router-driven clients: the light-client contracts are called by the router only.

Places where the code departs from what its documentation or its name suggests, and the model follows
the code:

- The transfer application writes ICS-20 packet data as JSON and reads it back as XDR; the model keeps
  both as parameters and says "reading inverts writing" where a refund is used.
- The wasm client's SCP quorum is one acceptable envelope of a trusted validator.
- The wasm client takes siblings from proof steps without checking their side; the slot index decides.
- A counterparty id may have up to 128 bytes, but path keys leave room for 119. Packets sent to a longer
  id can never be settled, nor any packet timed out whose timeout is the largest 64-bit number; see
  `Settleable.SettleableExactly` and the run of `Scenarios.UnsettleablePacketSent`.
- The tendermint client does not compare the height it is initialised at with the latest height of its
  client state. Its consensus states are write-once exactly when the first does not exceed the second;
  see `TenderConsensus.CreatedFixedExactly`.
- A client created in a frozen state is never marked frozen by the router; see
  `ClientRuns.FlagsAgreeExactly`.
- An accepted non-membership proof speaks of a 64-bit slot. A key is certainly absent only if no other
  key shares its slot; see `StoreProofs.TruthfulExactly` and `StoreProofs.AlwaysTruthfulExactly`.
- The client types "client" and "channel" are valid, but the ids minted for them are not valid as
  counterparty ids; see `Registrations.MintedIdsAreValid`.
- The gateway applies only byte-string values; an update of a provable entry to another kind of value
  leaves the old bytes in its tree. `LedgerMirror.AnswersMirrorLedger` is about contracts that write byte
  strings, as the router does, and `LedgerMirror.OtherValuesAreIgnored` shows the other case.
- `on_recv_packet` looks at the destination port only, so an application under any other port can make
  it credit. `ForeignCredits.ForeignPayloadCredited` is a run in which it credits what nothing in escrow
  stands for; `Orders.CreditMatchedExactly` says that a credit is matched by an escrowed order if and
  only if its source port is the transfer port, and `Backing.CreditsAreBacked` bounds the credits.
- Counterparty registration is one-sided: two source clients may name one destination client, which
  names one of them. `PacketSafety.AcknowledgementIsReply` says whose reply an acknowledgement then is,
  and `SharedDestination.AcknowledgedWithAnothersReply` is a run in which it is another packet's.

## Model

| member | source | states |
|---|---|---|
| `Paths.KeyInjective` | contracts/soroban/ibc-router/src/ics24_host.rs:36-49 | Different (client, kind, sequence) triples have different store keys. |
| `Paths.KeyParseBijection` | crates/core/src/conversion.rs:190-198 | Keys and the gateway's filter match: building and parsing are mutually inverse between paths with a non-empty client id and exactly the keys the filter accepts. |
| `Paths.BuildKey` | contracts/soroban/ibc-router/src/ics24_host.rs:36-49 | Filling the 128-byte buffer yields the key, and traps exactly for client ids longer than 119 bytes. |
| `Layouts.KeyLayout` | contracts/soroban/ibc-router/src/ics24_host.rs:36-49 | A key is the client id, then 1, 2 or 3 for commitment, receipt or acknowledgement, then the sequence in eight bytes, most significant first. |
| `Commitments.HashPayload` | contracts/soroban/ibc-router/src/ics24_host.rs:55-63 | The payload hash is the specified digest of the five field digests; it traps exactly when a string exceeds 256 bytes. |
| `Commitments.HashPacket` | contracts/soroban/ibc-router/src/ics24_host.rs:65-82 | The appending loop computes the packet commitment, or traps exactly on an over-long string. |
| `Commitments.HashAck` | contracts/soroban/ibc-router/src/ics24_host.rs:84-98 | The appending loop computes the acknowledgement commitment. |
| `Commitments.PacketEvidence` | crates/core/src/ibc/commitment.rs:53-69 | A packet commitment binds destination, timeout and every field of every payload: two packets with one commitment that differ there yield a computed hash collision. |
| `Commitments.AckEvidence` | crates/core/src/ibc/commitment.rs:71-80 | An acknowledgement commitment binds the whole list, its length included. |
| `Layouts.PayloadLayout` | contracts/soroban/ibc-router/src/ics24_host.rs:55-63 | A payload commitment hashes 160 bytes: the digests of source port, destination port, version, encoding and value, in this order. |
| `Layouts.PacketLayout` | contracts/soroban/ibc-router/src/ics24_host.rs:65-82 | A packet commitment hashes 97 bytes: byte 2, the digest of the destination client, the digest of the timeout in eight big-endian bytes, the digest of the payload commitments in order. |
| `Layouts.AckLayout` | contracts/soroban/ibc-router/src/ics24_host.rs:84-98 | An acknowledgement commitment hashes byte 2 and the digests of the acknowledgements in order. |
| `Layouts.ErrorText` | contracts/soroban/ibc-router/src/ics24_host.rs:51-53 | The error acknowledgement is the hash of the text UNIVERSAL_ERROR_ACKNOWLEDGEMENT. |
| `MerkleTree.NodeOfEmptyTree` | crates/core/src/ibc/smt.rs:196-205 | Every node of the empty tree, at every height, is the all-zero digest. |
| `Layouts.TreeHashLayout` | crates/core/src/ibc/smt.rs:188-205 | Leaves are hashed behind byte 0, key before value; inner nodes behind byte 1, left before right; two empty children give the empty digest. |
| `Layouts.SlotLayout` | crates/core/src/ibc/smt.rs:180-186 | The slot is the number in the first eight bytes of the key's hash, most significant first. |
| `MerkleTree.BranchFoldsToNode` | crates/core/src/ibc/smt.rs:207-219 | From any height to any other, a node and its siblings fold to the ancestor, for trees of every depth. |
| `MerkleTree.BranchFoldsToRoot` | crates/core/src/ibc/smt.rs:207-219 | Every branch of the depth-64 tree folds to its root. |
| `MerkleTree.InnerEvidence` | contracts/cosmwasm/light-client/src/smt.rs:20-29 | Equal inner hashes of different children give a collision, or a zero preimage through the empty-pair shortcut. |
| `MerkleTree.FoldEvidence` | contracts/cosmwasm/light-client/src/smt.rs:35-51 | Two branches of one slot that reach one root from different bottoms give a collision or a zero preimage. |
| `MerkleTree.SlotEvidence` | contracts/cosmwasm/light-client/src/smt.rs:53-78 | Two different claims about one slot that reach one root break the hash, for leaves and for absence. |
| `MerkleTree.ClaimEvidence` | contracts/cosmwasm/light-client/src/smt.rs:53-78 | A branch that reaches a tree's root but claims what the tree does not hold breaks the hash. |
| `MerkleTree.RootEvidence` | crates/core/src/ibc/smt.rs:45-51 | At a slot where two trees with one root differ, their branches break the hash. |
| `MerkleTree.RootBindsLeaves` | crates/core/src/ibc/smt.rs:45-51 | Two trees with equal roots have identical leaf maps, or a slot exists whose branches break the hash. |
| `SmtStore.SlotAfterWrites` | crates/core/src/ibc/smt.rs:25-43 | After any inserts and removes, a slot holds what its last write put there. |
| `SmtStore.LevelStep` | crates/core/src/ibc/smt.rs:125-148 | One level built from the stored parents agrees with the dense tree at every index, stored or not, and stores no index out of range. |
| `SmtStore.Smt.Insert` | crates/core/src/ibc/smt.rs:25-34 | Inserting writes one slot; an empty value removes it. |
| `SmtStore.Smt.Remove` | crates/core/src/ibc/smt.rs:40-43 | Removing empties one slot. |
| `SmtStore.Smt.MaterializeLevels` | crates/core/src/ibc/smt.rs:125-148 | At every height and index, lookup-or-empty in the sparse levels is the dense node; indices stay below 2^(64-h), so no shift loses a bit. |
| `SmtStore.Smt.LeafLevel` | crates/core/src/ibc/smt.rs:125-130 | The bottom level holds exactly the leaf hashes, at their slots. |
| `SmtStore.Smt.ParentLevel` | crates/core/src/ibc/smt.rs:131-145 | The next level of a level that agrees with the dense tree agrees with it. |
| `SmtStore.Smt.Root` | crates/core/src/ibc/smt.rs:45-51 | The sparse root is the root of the dense tree. |
| `SmtStore.Smt.SiblingsFor` | crates/core/src/ibc/smt.rs:150-160 | The siblings read off the levels are those of the dense tree. |
| `SmtStore.Smt.GenerateMembershipProof` | crates/core/src/ibc/smt.rs:53-65 | A proof is produced exactly when the slot holds the key, with the tree's siblings. |
| `SmtStore.Smt.GenerateNonMembershipProof` | crates/core/src/ibc/smt.rs:67-81 | A proof is produced exactly when the slot is empty. |
| `SmtStore.FoldSiblings` | contracts/cosmwasm/light-client/src/smt.rs:35-51 | The shifting loop computes the fold. |
| `ProofWire.BuildExistenceProofWithIndex` | crates/core/src/ibc/proof.rs:84-109 | The loop emits one step per sibling with the side its index bit says. |
| `ProofWire.SiblingsRoundTrip` | contracts/cosmwasm/light-client/src/merkle.rs:114-137 | The client reads back exactly the siblings that were written, for every index and length. |
| `ProofWire.MembershipRoundTrip` | contracts/cosmwasm/light-client/src/merkle.rs:76-90 | Decoding a serialised membership proof returns key, value and siblings, and it never decodes as a non-membership proof. |
| `ProofWire.NonMembershipRoundTrip` | contracts/cosmwasm/light-client/src/merkle.rs:92-112 | Decoding a serialised non-membership proof returns key and siblings, and it never decodes as a membership proof. |
| `Layouts.StepsMeanBranch` | crates/core/src/ibc/proof.rs:65-82 | Evaluated by the ICS-23 rule (hash prefix, child, suffix), the printed steps give the fold of the branch, as long as no node on it is empty. |
| `Layouts.ProofLayout` | crates/core/src/ibc/proof.rs:84-109 | The envelope around the steps: SHA-256, no prehashing, no length prefix, one step per sibling. |
| `Layouts.StepsRead` | contracts/cosmwasm/light-client/src/merkle.rs:114-137 | Steps are read exactly when each has one of the two forms, and then give their siblings in order. |
| `Layouts.ProofsRead` | contracts/cosmwasm/light-client/src/merkle.rs:76-112 | A proof is read exactly when its first entry is of the kind asked for with readable steps; absence needs a left neighbour with an empty value. |
| `WasmClient.VerifyScpQuorum` | contracts/cosmwasm/light-client/src/entrypoint.rs:346-418 | The loop accepts exactly when the network id is well formed and some envelope of a trusted validator is validly signed, in either of the two signing forms. |
| `WasmClient.Contract.Instantiate` | contracts/cosmwasm/light-client/src/entrypoint.rs:24-50 | Writes the first client and consensus state and a non-empty checksum, once; every error leaves the storage alone. |
| `WasmClient.Contract.VerifyClientMessage` | contracts/cosmwasm/light-client/src/entrypoint.rs:121-150 | Accepts exactly an advancing header with a known trusted height and a quorum, for a live client. |
| `WasmClient.Contract.UpdateState` | contracts/cosmwasm/light-client/src/entrypoint.rs:152-195 | Adds a consensus state, refuses a conflicting one, and raises the latest height. |
| `WasmClient.Contract.UpdateStateOnMisbehaviour` | contracts/cosmwasm/light-client/src/entrypoint.rs:197-207 | Freezes at the latest height. |
| `WasmClient.Contract.CheckForMisbehaviour` | contracts/cosmwasm/light-client/src/entrypoint.rs:209-234 | Reports exactly a conflict with a stored consensus state of a live client. |
| `WasmClient.Contract.VerifyMembership` | contracts/cosmwasm/light-client/src/entrypoint.rs:236-284 | The result, errors included, is that of the specified check. |
| `WasmClient.Contract.VerifyNonMembership` | contracts/cosmwasm/light-client/src/entrypoint.rs:286-314 | The result, errors included, is that of the specified check. |
| `WasmClient.ConcatPath` | contracts/cosmwasm/light-client/src/entrypoint.rs:316-323 | Joins the path segments in order. |
| `WasmClient.RunExtends` | contracts/cosmwasm/light-client/src/entrypoint.rs:121-207 | Between any two moments of any run: no stored consensus state and no checksum changes, the latest height is the greatest stored one and every stored height is at least the first, and a frozen client keeps its heights and states. |
| `WasmClient.FrozenForGood` | contracts/cosmwasm/light-client/src/entrypoint.rs:197-314 | Once frozen, every later header and every later proof is refused. |
| `HeaderTrust.AcceptedExactly` | contracts/cosmwasm/light-client/src/entrypoint.rs:121-195 | An update is accepted exactly for a header that advances from a known height, carries a trusted validator's signature and contradicts nothing stored; it stores that header's time, ledger hash and state root, each in its place, and nothing else. |
| `HeaderTrust.ConflictReported` | contracts/cosmwasm/light-client/src/entrypoint.rs:209-234 | Misbehaviour is reported exactly for a header that differs from the stored state in time, ledger hash or state root, and a verified header is refused as a conflict exactly then. |
| `HeaderTrust.InstantiatedExactly` | contracts/cosmwasm/light-client/src/entrypoint.rs:24-50 | Instantiation succeeds once, exactly for readable states with a latest height, and stores what it was given. |
| `HeaderTrust.FrozenExactly` | contracts/cosmwasm/light-client/src/entrypoint.rs:197-207 | Misbehaviour freezes an instantiated client at its latest height and changes nothing else. |
| `HeaderTrust.AcceptedHeaderIsTrusted` | contracts/cosmwasm/light-client/src/entrypoint.rs:152-195 | After any further messages, an unfrozen client trusts exactly the accepted header's state root at its ledger, at its time. |
| `HeaderTrust.HeaderMakesAnswersConvince` | contracts/cosmwasm/light-client/src/entrypoint.rs:236-314 | End to end: a header with the root of the gateway's tree makes the gateway's answers convince the client at that ledger of exactly what they say. |
| `HeaderTrust.EveryStateIsVouched` | contracts/cosmwasm/light-client/src/entrypoint.rs:346-418 | Over every run, a consensus state is the first one or belongs to a header of the run that a validator trusted from the beginning signed; no run adds one without such a signature. |
| `ProofPipeline.LastWriteDecides` | crates/core/src/ibc/state.rs:56-82 | After any writes, the gateway's answer for a key is decided by the last write into its slot. |
| `ProofPipeline.AnswerAcceptedExactly` | crates/core/src/ibc/state.rs:56-82 | Completeness end to end: the answer, serialised, decoded and folded by the wasm client under the tree's root, is accepted for exactly its key and its value, or exactly its absent key, and refused as the opposite kind. |
| `ProofPipeline.MembershipSound` | contracts/cosmwasm/light-client/src/entrypoint.rs:236-284 | An accepted membership proof is true of the committed tree, or the proof and the tree break the hash. |
| `ProofPipeline.NonMembershipSound` | contracts/cosmwasm/light-client/src/entrypoint.rs:286-314 | An accepted non-membership proof is true of the committed tree, or the two break the hash. |
| `ProofPipeline.PresentAndAbsentEvidence` | contracts/cosmwasm/light-client/src/smt.rs:53-78 | For any root: from an accepted membership and an accepted non-membership proof of one key, a break of the hash is computed. |
| `ProofPipeline.TwoValuesEvidence` | contracts/cosmwasm/light-client/src/smt.rs:53-66 | For any root: from accepted proofs of two values of one key, a break of the hash is computed. |
| `StoreProofs.AcceptedIsStored` | contracts/cosmwasm/light-client/src/entrypoint.rs:236-284 | An accepted membership proof means that the written store maps that key to that value, or a collision is computed. |
| `StoreProofs.AcceptedIsAbsent` | contracts/cosmwasm/light-client/src/entrypoint.rs:286-314 | An accepted non-membership proof means that the store lacks the key, unless the last write into its slot removed another key, or the proof breaks the hash; `TruthfulExactly` is the converse. |
| `StoreProofs.SharedSlotHides` | crates/core/src/ibc/smt.rs:40-43 | With a shared slot, removing one key makes the tree prove the absence of a key that the store still holds. |
| `StoreProofs.HiddenExactly` | crates/core/src/ibc/smt.rs:25-43 | A stored key is missing from the tree if and only if the last write into its slot removed another key. |
| `StoreProofs.TruthfulExactly` | contracts/cosmwasm/light-client/src/entrypoint.rs:286-314 | For one history and a stored key: the client accepts no proof of its absence, hash breaks apart, if and only if the last write into its slot did not remove another key. |
| `StoreProofs.AlwaysTruthfulExactly` | contracts/cosmwasm/light-client/src/entrypoint.rs:286-314 | Over a set of keys: every history of writes keeps the client from accepting a false absence of a key, hash breaks apart, if and only if no other key of the set shares its slot. |
| `WasmSoundness.MemberSound` | contracts/cosmwasm/light-client/src/entrypoint.rs:236-284 | An accepted membership proof is true of the peer router's provable store at that block, or breaks the hash. |
| `WasmSoundness.AbsentSound` | contracts/cosmwasm/light-client/src/entrypoint.rs:286-314 | An accepted non-membership proof is true of the peer router's provable store at that block, or the key was hidden by another of its slot, or the proof breaks the hash. |
| `WasmSoundness.WasmClientIsSound` | contracts/cosmwasm/light-client/src/entrypoint.rs:236-314 | The soundness hypothesis of the two-chain statements holds of the wasm client, unless it accepts a proof that breaks the hash or speaks of a key hidden by another key of its slot. |
| `StateTracker.CompleteReplay` | crates/core/src/ibc/state.rs:84-111 | Replaying again after a partial failure reaches the reference tree, whatever the failure left behind. |
| `StateTracker.NextAnswers` | crates/core/src/ibc/state.rs:49-54 | Every question keeps the tracker consistent, changes no answered root, and in order answers the root of the reference replay. |
| `StateTracker.State.ApplyChange` | crates/core/src/ibc/state.rs:142-179 | A ledger change amounts to its tree write; changes of other contracts, keys or values do nothing. |
| `StateTracker.State.ApplyLedger` | crates/core/src/ibc/state.rs:113-140 | All changes of a ledger are applied in order, or none. |
| `StateTracker.State.ReplayRange` | crates/core/src/ibc/state.rs:102-104 | Applies ledgers in order up to the first that cannot be fetched. |
| `StateTracker.State.ProcessThrough` | crates/core/src/ibc/state.rs:84-111 | The new roots, tree and last ledger are those of the specified question. |
| `StateTracker.State.Advance` | crates/core/src/ibc/state.rs:92-110 | The replay stops at the first missing ledger and keeps what it applied, or records the new root. |
| `StateTracker.State.RootAt` | crates/core/src/ibc/state.rs:49-54 | State and answer follow the question, cached or replayed, and mean what `Answers` says. |
| `StateTracker.State.ProofForPath` | crates/core/src/ibc/state.rs:56-82 | In order, the proof comes from the reference tree whose root is the one answered, is the right answer for the key, and convinces a client that trusts that root of exactly what it says. |
| `StateTracker.State.LookUp` | crates/core/src/ibc/state.rs:56-82 | Membership, else non-membership, else an error, from the generators and the serialiser, is the specified answer. |
| `TrackerRuns.OrderedAnswersAreReplays` | crates/core/src/ibc/state.rs:49-111 | Over every non-decreasing sequence of questions with any failures, every root ever answered is the root of folding all changes from one first ledger to the one asked for. |
| `TrackerRuns.OrderedProofsConvince` | crates/core/src/ibc/state.rs:56-82 | Over every non-decreasing sequence of questions, the proof given with an answered root is the right answer at that ledger and verifies against that root for exactly what it says. |
| `TrackerRuns.FirstAnsweredStarts` | crates/core/src/ibc/state.rs:84-95 | That first ledger is the one of the first question answered. |
| `LedgerMirror.StoreMirrorsLedger` | crates/core/src/ibc/state.rs:142-179 | For every history of a contract that writes byte strings, the store folded into the tree holds exactly its provable entries with non-empty values: created and updated ones set, removed ones gone. |
| `LedgerMirror.AnswersMirrorLedger` | crates/core/src/ibc/state.rs:56-82 | Over every non-decreasing sequence of questions, the answer for a provable key proves the value that the contract's data holds at that ledger, or its absence exactly when it holds none, unless another written key shares its slot. |
| `LedgerMirror.LookupFollowsStore` | crates/core/src/ibc/state.rs:56-82 | The tree answers for a key as the store says, unless another written key shares its slot. |
| `LedgerMirror.UnfilteredFollowsAll` | crates/core/src/ibc/state.rs:181-189 | With a contract id only that contract is followed; without one every contract is, and accounts never. |
| `LedgerMirror.OtherValuesAreIgnored` | crates/core/src/ibc/state.rs:160-179 | An update to a value that is not a byte string is not applied. |
| `ClientIds.TypeRecovered` | crates/api/src/services/clients.rs:43-48 | Splitting at the last dash recovers the type from every minted id. |
| `ClientIds.ClientIdInjective` | contracts/soroban/ibc-router/src/ics02_client.rs:158-172 | Different (type, counter) pairs get different ids, whatever dashes and digits the types contain. |
| `ClientIds.DigitsReversed` | contracts/soroban/ibc-router/src/ics02_client.rs:179-185 | The ten-byte scratch array holds the decimal digits, last first. |
| `ClientIds.WriteU32` | contracts/soroban/ibc-router/src/ics02_client.rs:174-190 | Writes the decimal digits in place, leaves the rest of the prefix alone, and traps exactly when the buffer is full. |
| `ClientIds.MintClientId` | contracts/soroban/ibc-router/src/ics02_client.rs:158-172 | The id is type, dash and counter, and minting traps exactly when they exceed 64 bytes. |
| `Layouts.IdentifierRules` | contracts/soroban/ibc-router/src/identifiers.rs:23-62 | An identifier is valid exactly with 4 to 128 characters of the ICS-24 alphabet and no channel- or client- prefix. |
| `Registrations.MintedIdsAreValid` | contracts/soroban/ibc-router/src/identifiers.rs:23-62 | An id minted for a valid type can be named as a counterparty if and only if the type is neither "client" nor "channel". |
| `RouterRuns.ExecKeeps` | contracts/soroban/ibc-router/src/packet_handler.rs:14-241 | No entry point breaks the router's invariant or withdraws a receipt, acknowledgement, port, counterparty or event, and `write_acknowledgement` never succeeds. |
| `RouterRuns.SettledAtMostOnce` | contracts/soroban/ibc-router/src/packet_handler.rs:144-241 | In every reachable state: sequences per client are 1, 2, 3, ... each sent once; a sent packet is live or settled, never both, never twice; a second settlement is refused whatever the proof. |
| `RouterRuns.ReceivedAtMostOnce` | contracts/soroban/ibc-router/src/packet_handler.rs:67-142 | In every reachable state: receipts and acknowledgements coincide, each payload reached its application once, a second receive and any `write_acknowledgement` are refused. |
| `RouterRuns.CallbacksReachTheSender` | contracts/soroban/ibc-router/src/packet_handler.rs:268-306 | A settlement callback, whenever it comes, goes to an application that authorised the send. |
| `RouterRuns.FreshClientId` | contracts/soroban/ibc-router/src/ics02_client.rs:27-58 | In every reachable state, the next client id is not in use. |
| `RouterRuns.WriteAckRefused` | contracts/soroban/ibc-router/src/packet_handler.rs:120-142 | `write_acknowledgement` is refused in every state that keeps the invariant. |
| `Registrations.PortExactly` | contracts/soroban/ibc-router/src/port_router.rs:7-20 | A port is registered exactly with the administrator's authorisation, a valid name and no earlier registration. |
| `Registrations.TypeExactly` | contracts/soroban/ibc-router/src/ics02_client.rs:7-19 | A client type is registered exactly with the administrator's authorisation and a valid name. |
| `Registrations.ClientExactly` | contracts/soroban/ibc-router/src/ics02_client.rs:27-58 | A client is created exactly for a registered type whose id fits and whose light client accepts, under the next counter and at the type's contract. |
| `Registrations.CounterpartyExactly` | contracts/soroban/ibc-router/src/ics02_client.rs:60-88 | A counterparty is registered exactly once per existing client, with a valid id. |
| `Registrations.UpdateExactly` | contracts/soroban/ibc-router/src/ics02_client.rs:96-143 | An update goes through exactly for a known client that is not frozen and whose light client answers, and freezes exactly on evidence. |
| `Registrations.EveryRegistrationHasOrigin` | contracts/soroban/ibc-router/src/ics02_client.rs:7-143 | In every reachable state, every port and client type was registered by the administrator, every client created for a type at a contract registered for it, every counterparty has a valid id, and every frozen client was frozen by evidence. |
| `Receiving.SentExactly` | contracts/soroban/ibc-router/src/packet_handler.rs:14-65 | A packet is sent exactly when it has payloads, its client a counterparty, its timeout lies ahead, every source port's application authorised it and every string fits; it then carries what was asked for under the next sequence. |
| `Receiving.RecvDispatch` | contracts/soroban/ibc-router/src/packet_handler.rs:243-266 | The dispatch succeeds exactly when every payload's port is known and its application replies, for any number of payloads, and otherwise fails with the error of the first that fails. |
| `Receiving.ReceivedExactly` | contracts/soroban/ibc-router/src/packet_handler.rs:67-118 | In every reachable state a packet is received exactly when its clients name each other's ends, its timeout lies ahead, it was not received before, its commitment is proved and every payload is delivered; the replies are acknowledged in order, the error acknowledgement for no payloads. |
| `Receiving.AcknowledgementRecords` | contracts/soroban/ibc-router/src/packet_handler.rs:144-191 | An acknowledgement removes the commitment and hands each payload's application its acknowledgement, or the error acknowledgement when there is none. |
| `Receiving.TimeoutRecords` | contracts/soroban/ibc-router/src/packet_handler.rs:193-241 | A timeout removes the commitment and calls each payload's application back. |
| `Receiving.SendRefusals` | contracts/soroban/ibc-router/src/packet_handler.rs:20-36 | A refused send names a true reason, and only the listed ones occur. |
| `Receiving.RecvRefusals` | contracts/soroban/ibc-router/src/packet_handler.rs:68-97 | A refused receive names a true reason about the state, the packet and the clock. |
| `Receiving.SettleRefusals` | contracts/soroban/ibc-router/src/packet_handler.rs:151-162 | A refused settlement names a true reason: no commitment, another commitment, no counterparty or another one. |
| `Receiving.ProofRefusals` | contracts/soroban/ibc-router/src/packet_handler.rs:164-229 | Past these checks, an acknowledgement or a timeout is refused only for its proof, a timeout not yet elapsed (exactly when the proof is not past it), or a trap. |
| `Settleable.AcknowledgedExactly` | contracts/soroban/ibc-router/src/packet_handler.rs:144-191 | In every reachable state, a live packet is acknowledged if and only if its destination id fits, the light client accepts the proof at the counterparty's acknowledgement path, and the applications return. |
| `Settleable.TimedOutExactly` | contracts/soroban/ibc-router/src/packet_handler.rs:193-241 | The same for a timeout, with the proof time past the timeout and the receipt proved absent. |
| `Settleable.SettleableExactly` | contracts/soroban/ibc-router/src/packet_handler.rs:144-241 | A live packet can be acknowledged at all if and only if its destination id has at most 119 bytes, and timed out if and only if, besides, its timeout is below the largest 64-bit number. |
| `Settleable.StuckForGood` | contracts/soroban/ibc-router/src/packet_handler.rs:144-241 | A packet for a longer destination id stays unsettled over every continuation. |
| `Settleable.LongCounterpartyAccepted` | contracts/soroban/ibc-router/src/ics02_client.rs:60-88 | Registration accepts such an id: 120 letters. |
| `Scenarios.UnsettleablePacketSent` | contracts/soroban/ibc-router/src/packet_handler.rs:14-65 | Such packets exist: for every timeout past the clock, five transactions from deployment send one that no continuation settles. |
| `RouterContract.StoreSet` | contracts/soroban/ibc-router/src/ibc_store.rs:8-18 | Writing one path in the single byte-keyed store changes that entry of its own map and no other entry of the three. |
| `RouterContract.StoreRemove` | contracts/soroban/ibc-router/src/ibc_store.rs:29-32 | Removing one path removes that entry and no other. |
| `RouterContract.StoreGet` | contracts/soroban/ibc-router/src/ibc_store.rs:20-27 | Reading a path reads the entry of its own map. |
| `RouterContract.IbcRouter.SetPacketCommitment` | contracts/soroban/ibc-router/src/ibc_store.rs:8-18 | The byte store keeps standing for three independent maps, one entry changed; traps when the key does not fit. |
| `RouterContract.IbcRouter.DeletePacketCommitment` | contracts/soroban/ibc-router/src/ibc_store.rs:29-32 | Removes that commitment only. |
| `RouterContract.IbcRouter.SetPacketReceipt` | contracts/soroban/ibc-router/src/ibc_store.rs:34-40 | Adds that receipt only. |
| `RouterContract.IbcRouter.SetAckCommitment` | contracts/soroban/ibc-router/src/ibc_store.rs:47-57 | Sets that acknowledgement only. |
| `RouterContract.IbcRouter.Get` | contracts/soroban/ibc-router/src/ibc_store.rs:20-27 | Returns exactly the value the typed state holds at the path. |
| `RouterContract.IbcRouter.RegisterPort` | contracts/soroban/ibc-router/src/port_router.rs:7-20 | Follows the write-once registration, errors included. |
| `RouterContract.IbcRouter.RegisterClientType` | contracts/soroban/ibc-router/src/ics02_client.rs:7-19 | Follows the registration, errors included. |
| `RouterContract.IbcRouter.CreateClient` | contracts/soroban/ibc-router/src/ics02_client.rs:27-58 | Follows the creation and returns the minted id. |
| `RouterContract.IbcRouter.RegisterCounterparty` | contracts/soroban/ibc-router/src/ics02_client.rs:60-88 | Follows the write-once registration, errors included. |
| `RouterContract.IbcRouter.UpdateClient` | contracts/soroban/ibc-router/src/ics02_client.rs:96-143 | Follows the update and returns the light client's height; evidence freezes instead and returns zero. |
| `RouterContract.IbcRouter.RequireAuth` | contracts/soroban/ibc-router/src/packet_handler.rs:31-35 | The loop returns the error of the first payload that is not authorised, or none. |
| `RouterContract.IbcRouter.CheckSend` | contracts/soroban/ibc-router/src/packet_handler.rs:14-43 | Refuses exactly as the send does, and otherwise returns the next sequence. |
| `RouterContract.IbcRouter.SendPacket` | contracts/soroban/ibc-router/src/packet_handler.rs:14-65 | Follows the send on the typed state and returns the next sequence; a failure leaves no trace. |
| `RouterContract.IbcRouter.DispatchRecv` | contracts/soroban/ibc-router/src/packet_handler.rs:243-266 | The loop makes the specified calls in order and collects one reply per payload, or the error acknowledgement for none. |
| `RouterContract.IbcRouter.DispatchAck` | contracts/soroban/ibc-router/src/packet_handler.rs:268-288 | The loop hands payload i acknowledgement i, or the error acknowledgement when there is none. |
| `RouterContract.IbcRouter.DispatchTimeout` | contracts/soroban/ibc-router/src/packet_handler.rs:290-306 | The loop makes the specified timeout calls in order. |
| `RouterContract.IbcRouter.VerifyMembership` | contracts/soroban/ibc-router/src/packet_handler.rs:308-333 | The error, if any, for each answer of the light client. |
| `RouterContract.IbcRouter.VerifyNonMembership` | contracts/soroban/ibc-router/src/packet_handler.rs:335-358 | The error, if any, for each answer of the light client. |
| `RouterContract.IbcRouter.CounterpartyPath` | contracts/soroban/ibc-router/src/packet_handler.rs:387-405 | The prefix segments in order, then the key; traps when the key does not fit. |
| `RouterContract.IbcRouter.CheckRecv` | contracts/soroban/ibc-router/src/packet_handler.rs:67-97 | Refuses exactly as the receive does. |
| `RouterContract.IbcRouter.RecvPacket` | contracts/soroban/ibc-router/src/packet_handler.rs:67-118 | Follows the receive on the typed state; a trapping callback undoes the receipt. |
| `RouterContract.IbcRouter.Deliver` | contracts/soroban/ibc-router/src/packet_handler.rs:98-117 | Receipt, callbacks, acknowledgement and events, or nothing when a callback traps. |
| `RouterContract.IbcRouter.FinishRecv` | contracts/soroban/ibc-router/src/packet_handler.rs:102-117 | Stores the commitment of the replies and publishes both events. |
| `RouterContract.IbcRouter.RestoreReceipts` | contracts/soroban/ibc-router/src/packet_handler.rs:67-118 | Rolling back a receipt restores the store and the typed state. |
| `RouterContract.IbcRouter.WriteAcknowledgement` | contracts/soroban/ibc-router/src/packet_handler.rs:120-142 | Follows the specified step, errors included. |
| `RouterContract.IbcRouter.CheckSettle` | contracts/soroban/ibc-router/src/packet_handler.rs:151-162 | The packet must hash to the stored commitment and name the registered counterparty. |
| `RouterContract.IbcRouter.AcknowledgePacket` | contracts/soroban/ibc-router/src/packet_handler.rs:144-191 | Follows the acknowledgement on the typed state; a failure leaves no trace. |
| `RouterContract.IbcRouter.TimeoutPacket` | contracts/soroban/ibc-router/src/packet_handler.rs:193-241 | Follows the timeout on the typed state; a failure leaves no trace. |
| `TwoChains.StepKeepsWorld` | contracts/soroban/ibc-router/src/packet_handler.rs:67-241 | Every transaction and every closed block on either chain keeps what each chain's events say about the other's blocks. |
| `TwoChains.RunKeepsWorld` | contracts/soroban/ibc-router/src/packet_handler.rs:67-241 | The same over every legal interleaving. |
| `PacketSafety.NeverReceivedAndTimedOut` | contracts/soroban/ibc-router/src/packet_handler.rs:193-241 | Over every interleaving of two routers, blocks and an arbitrary relayer, a packet timed out on its source is never received on its destination, before or after. |
| `PacketSafety.TimedOutAndReceivedCollide` | contracts/soroban/ibc-router/src/packet_handler.rs:193-241 | Timing one packet out and receiving another under the same clients and sequence yields a collision of the two. |
| `PacketSafety.ReceivedWasSent` | contracts/soroban/ibc-router/src/packet_handler.rs:67-118 | A received packet equals, in every field, the one packet its counterparty sent under that client and sequence, or the two collide. |
| `PacketSafety.SettledWasSent` | contracts/soroban/ibc-router/src/packet_handler.rs:144-241 | A settled packet is the one sent under its client and sequence, or the two collide. |
| `PacketSafety.AcknowledgementIsReply` | contracts/soroban/ibc-router/src/packet_handler.rs:144-191 | For every acknowledgement through an honest source client: the destination received exactly one packet q under that sequence, from the client it names; the acknowledgements are the replies to q's payloads, handed to p's payloads in order, or the lists collide; q is p, or the two collide, if and only if the destination client (honest too) names p's source client, and otherwise q is another packet. |
| `SharedDestination.AcknowledgedWithAnothersReply` | contracts/soroban/ibc-router/src/ics02_client.rs:60-88 | A run in which two source clients name one destination client: a packet is acknowledged, through honest clients, with the reply to another packet, and was never received. |
| `PacketSafety.OracleIsSound` | contracts/soroban/ibc-router/src/packet_handler.rs:308-358 | The soundness hypothesis on light clients can be met: a client that answers from the peer's history meets it. |
| `Transfer.HexRoundTrip` | contracts/soroban/ibc-transfer/src/lib.rs:382-397 | Reading hex digits inverts writing them. |
| `Transfer.AddressRoundTrip` | contracts/soroban/ibc-transfer/src/lib.rs:349-380 | A sender's address survives the trip through its hex string. |
| `Transfer.MovePreservesSupply` | contracts/soroban/ibc-transfer/src/lib.rs:255-275 | Debit and credit together change no denomination's supply, also when payer and payee coincide. |
| `Transfer.CreditAddsSupply` | contracts/soroban/ibc-transfer/src/lib.rs:264-268 | A credit adds exactly its amount to its denomination and nothing to others. |
| `Transfer.MoveExactly` | contracts/soroban/ibc-transfer/src/lib.rs:255-275 | For any two accounts, equal or not, and any amount: a move lacks balance exactly when the payer has less, otherwise fails exactly on overflow, and changes no other balance. |
| `Layouts.Texts` | contracts/soroban/ibc-transfer/src/lib.rs:47-51 | The port, version, encoding and JSON result texts, the success byte, and the reserved identifier prefixes. |
| `Layouts.DaySpan` | contracts/soroban/ibc-transfer/src/lib.rs:404-406 | A day is 86400 seconds. |
| `Layouts.HexLayout` | contracts/soroban/ibc-transfer/src/lib.rs:349-361 | Addresses are printed in lower-case hexadecimal, high nibble first. |
| `Layouts.HexDigitsRead` | contracts/soroban/ibc-transfer/src/lib.rs:390-397 | Digits of either case are read as their value, and nothing else is. |
| `Layouts.SuccessLayout` | contracts/soroban/ibc-transfer/src/lib.rs:331-347 | An acknowledgement is a success exactly when it is the byte 1 or opens a JSON result. |
| `Payouts.MintedExactly` | contracts/soroban/ibc-transfer/src/lib.rs:133-140 | Minting succeeds exactly for a positive amount without overflow, and pays that account alone. |
| `Payouts.CapSetExactly` | contracts/soroban/ibc-transfer/src/lib.rs:106-119 | A cap is set exactly by the administrator and not below zero, and changes nothing else. |
| `Payouts.EscrowedExactly` | contracts/soroban/ibc-transfer/src/lib.rs:149-168 | An order is escrowed exactly when its sender authorised it, the amount is positive and within the cap, the sender has it and escrow can take it; sender and escrow alone change. |
| `Payouts.PayloadSaysOrder` | contracts/soroban/ibc-transfer/src/lib.rs:170-190 | The payload says the order's denomination, amount, receiver and memo, each in its place, and a sender that reads back as the order's. |
| `Payouts.PlacedExactly` | contracts/soroban/ibc-transfer/src/lib.rs:149-206 | An order is placed exactly when it can be escrowed and the router can send it; its payload then goes to its client's counterparty. |
| `Payouts.OrderPays` | contracts/soroban/ibc-transfer/src/lib.rs:208-226 | An order's payload is taken exactly when its receiver is an address and its balance does not overflow, and pays that account alone. |
| `Payouts.ReceivedOrderPays` | contracts/soroban/ibc-transfer/src/lib.rs:208-226 | A receive of an order's packet goes through exactly then, and pays the receiver. |
| `Escrow.TransferKeeps` | contracts/soroban/ibc-transfer/src/lib.rs:149-206 | A transfer escrows what its packet carries, and every packet it sends is refundable. |
| `Escrow.SettlementBalances` | contracts/soroban/ibc-transfer/src/lib.rs:228-252 | Settling a sent packet takes from escrow exactly what the packet carries when it refunds, and nothing otherwise. |
| `Escrow.OutstandingPaidOut` | contracts/soroban/ibc-transfer/src/lib.rs:228-275 | What is outstanding shrinks by exactly what a refund pays out. |
| `Escrow.InFlightRemove` | contracts/soroban/ibc-router/src/packet_handler.rs:144-241 | Removing a commitment takes exactly its packet's amount out of the sum in flight. |
| `Escrow.ForeignSendAvoidsPort` | contracts/soroban/ibc-router/src/packet_handler.rs:31-35 | A send that the application did not authorise carries no payload of its port. |
| `EscrowRuns.ExecOpKeeps` | contracts/soroban/ibc-transfer/src/lib.rs:149-275 | Every operation of application and router keeps escrow above all transfers that were not refunded. |
| `EscrowRuns.ForgerWasForging` | contracts/soroban/ibc-router/src/packet_handler.rs:151-156 | Settling a packet other than the one sent yields a collision of the two. |
| `EscrowRuns.EscrowCoversInFlight` | contracts/soroban/ibc-transfer/src/lib.rs:149-275 | In every reachable state, escrow of every denomination is at least the sum of the amounts whose commitment is present, unless the run exhibits a collision. |
| `EscrowRuns.RefundNeverLacks` | contracts/soroban/ibc-transfer/src/lib.rs:228-275 | The refund of a live transfer never lacks balance: it fails exactly on overflow of the sender's balance and otherwise returns the amount in full; a success acknowledgement changes nothing. |
| `EscrowRuns.LiveTransfersRefund` | contracts/soroban/ibc-transfer/src/lib.rs:228-275 | The same for every transfer live at the end of any run. |
| `EscrowRuns.ExecOpSupply` | contracts/soroban/ibc-transfer/src/lib.rs:133-275 | Sends and refunds preserve the supply; mints and inbound transfers add exactly their amount. |
| `EscrowRuns.SupplyOverRuns` | contracts/soroban/ibc-transfer/src/lib.rs:133-275 | Over every run, the supply of a denomination grows by exactly what was minted and received. |
| `DailyCap.UsageRecordsSends` | contracts/soroban/ibc-transfer/src/lib.rs:404-425 | While a cap stays in force, the amounts sent on a day sum to the recorded increase in usage, usage is at most the cap once anything was sent, and failed sends count nothing. |
| `DailyCap.DailyTotalWithinCap` | contracts/soroban/ibc-transfer/src/lib.rs:404-425 | From deployment on, what is sent on a day under one cap never exceeds it. |
| `TransferContract.IbcTransfer.SetRateLimit` | contracts/soroban/ibc-transfer/src/lib.rs:106-119 | Sets a non-negative cap, for the administrator only. |
| `TransferContract.IbcTransfer.Mint` | contracts/soroban/ibc-transfer/src/lib.rs:133-140 | Credits a positive amount, or fails and changes nothing. |
| `TransferContract.IbcTransfer.BalanceOf` | contracts/soroban/ibc-transfer/src/lib.rs:142-147 | The stored balance, or zero. |
| `TransferContract.IbcTransfer.Debit` | contracts/soroban/ibc-transfer/src/lib.rs:255-262 | Lowers one balance, or fails and changes nothing. |
| `TransferContract.IbcTransfer.Credit` | contracts/soroban/ibc-transfer/src/lib.rs:264-268 | Raises one balance, or fails and changes nothing. |
| `TransferContract.IbcTransfer.EnforceRateLimit` | contracts/soroban/ibc-transfer/src/lib.rs:408-425 | Records the amount on the day, or refuses beyond the cap. |
| `TransferContract.IbcTransfer.InitiateTransfer` | contracts/soroban/ibc-transfer/src/lib.rs:149-206 | Application and router together follow the specified transfer, and a refusal anywhere takes both back. |
| `TransferContract.IbcTransfer.Refund` | contracts/soroban/ibc-transfer/src/lib.rs:270-275 | Moves the amount from escrow to the decoded sender, or fails and changes nothing. |
| `TransferContract.IbcTransfer.OnRecvPacket` | contracts/soroban/ibc-transfer/src/lib.rs:208-226 | For the router only; follows the callback and replies with the success byte. |
| `TransferContract.IbcTransfer.OnAcknowledgementPacket` | contracts/soroban/ibc-transfer/src/lib.rs:228-241 | For the router only; refunds exactly on an acknowledgement that is not a success. |
| `TransferContract.IbcTransfer.OnTimeoutPacket` | contracts/soroban/ibc-transfer/src/lib.rs:243-252 | For the router only; refunds. |
| `TransferContract.IsSuccessAck` | contracts/soroban/ibc-transfer/src/lib.rs:331-347 | The byte-by-byte comparison accepts exactly the success byte and the texts that open a JSON result. |
| `TransferContract.WriteAddress` | contracts/soroban/ibc-transfer/src/lib.rs:349-361 | Fills the buffer with the hex of the encoded address; traps beyond 256 bytes. |
| `TransferContract.ReadAddress` | contracts/soroban/ibc-transfer/src/lib.rs:363-380 | Reads an address back, refusing odd, over-long and non-hex strings. |
| `TwoBridges.RunKeepsDuo` | contracts/soroban/ibc-transfer/src/lib.rs:149-275 | Over every legal run of two chains with the application on both, packet safety and escrow hold on both, or a step settled a colliding packet. |
| `Credits.DeliveryCredits` | contracts/soroban/ibc-transfer/src/lib.rs:208-226 | A received packet credits the sum of its payloads for the transfer port, whatever their source port, and nothing else. |
| `Credits.ExecOpTallies` | contracts/soroban/ibc-transfer/src/lib.rs:208-226 | Every operation keeps the tally: what the callbacks credited is what the received payloads for the transfer port carry. |
| `Backing.TransferIsGenuine` | contracts/soroban/ibc-transfer/src/lib.rs:149-252 | A packet received over honest clients with a payload from transfer port to transfer port is the one its chain sent, has that payload alone, and was not refunded, by timeout or by a failed acknowledgement, or a collision is computed. |
| `Backing.DeliveriesAreSends` | contracts/soroban/ibc-transfer/src/lib.rs:149-226 | The amounts credited for transfer-port payloads sum to the amounts of the packets sent for them, each counted once. |
| `Backing.CreditsAreBacked` | contracts/soroban/ibc-transfer/src/lib.rs:149-275 | Over every legal run and in both directions: what one chain's application really credited over honest clients, payloads of every port included, is the part from the transfer port plus the part from other ports, and the first part never exceeds what the other chain holds in escrow, or the run exhibits a collision. |
| `Orders.OwnSendsWerePlaced` | contracts/soroban/ibc-transfer/src/lib.rs:149-206 | Every packet a chain sent that uses the transfer port was sent by a successful order of the run. |
| `Orders.PlacingEscrows` | contracts/soroban/ibc-transfer/src/lib.rs:149-206 | An order adds to escrow exactly what its payload tells the destination to credit. |
| `Orders.CreditMatchedExactly` | contracts/soroban/ibc-transfer/src/lib.rs:208-226 | Over every legal run and honest clients: a credited payload is matched by a successful, unrefunded, escrowed order of the other chain if and only if its source port is the transfer port, or a collision is computed. |
| `Payouts.OrderPaysReceiver` | contracts/soroban/ibc-transfer/src/lib.rs:208-226 | Over every run, when the packet of a placed order is received, the account named as its receiver gains exactly the amount in its denomination, and no other account changes. |
| `Payouts.TransferPaysItsOrder` | contracts/soroban/ibc-transfer/src/lib.rs:149-226 | Over every legal run and honest clients, a received transfer is the packet of an order of the other chain and pays that order's receiver, or a collision is computed. |
| `ForeignCredits.ForeignPayloadCredited` | contracts/soroban/ibc-transfer/src/lib.rs:208-226 | A run in which an application under another port sends a payload for the transfer port: the destination credits it in full over honest clients while the source's escrow stays empty. |
| `Attestation.VerifyQuorum` | contracts/soroban/light-clients/attestation/src/lib.rs:278-304 | Returns normally exactly when there are equally many signatures and indices, at least the required number, with pairwise distinct indices below 64 and below the number of keys, and every signature valid. |
| `Attestation.QuorumMeansSigners` | contracts/soroban/light-clients/attestation/src/lib.rs:278-304 | So at least the required number of distinct slots signed the data. |
| `Attestation.QuorumNeedsSlots` | contracts/soroban/light-clients/attestation/src/lib.rs:278-304 | A client that requires more signatures than it has keys, or more than 64, can never be served. |
| `Attestation.QuorumsIntersect` | contracts/soroban/light-clients/attestation/src/lib.rs:278-304 | When more than half of the keys are required, any two accepted proofs share a signer. |
| `ClientTruth.AcceptedIsAttested` | contracts/soroban/light-clients/attestation/src/lib.rs:182-210 | A proof is accepted at a height only if the client knows it and at least the required number of distinct slots signed an attestation for that height that lists the path with the value. |
| `ClientTruth.AttestedIsAccepted` | contracts/soroban/light-clients/attestation/src/lib.rs:182-240 | And it is accepted whenever a quorum's proof of that is presented; absence is an empty value. |
| `ClientTruth.AttestationDrivenExactly` | contracts/soroban/light-clients/attestation/src/lib.rs:124-173 | Driven by the router, a live client takes exactly what a quorum says: a contradicting timestamp freezes it, any other is stored under its height alone and may raise the latest height. |
| `ClientTruth.UnsaidIsRefused` | contracts/soroban/light-clients/attestation/src/lib.rs:124-162 | What no quorum said, and anything said to a frozen or unknown client, is refused. |
| `AttestationContract.AttestationLightClient.Initialise` | contracts/soroban/light-clients/attestation/src/lib.rs:75-93 | Writes the client and its first timestamp, or panics and changes nothing. |
| `AttestationContract.AttestationLightClient.CheckForMisbehaviour` | contracts/soroban/light-clients/attestation/src/lib.rs:124-138 | Reports exactly a quorum's timestamp that conflicts with the stored one. |
| `AttestationContract.AttestationLightClient.UpdateState` | contracts/soroban/light-clients/attestation/src/lib.rs:140-162 | Writes the attested timestamp, raises the latest height and returns the attested height, or panics and changes nothing. |
| `AttestationContract.AttestationLightClient.UpdateStateOnMisbehaviour` | contracts/soroban/light-clients/attestation/src/lib.rs:164-173 | Sets both frozen entries. |
| `AttestationContract.AttestationLightClient.VerifyMembership` | contracts/soroban/light-clients/attestation/src/lib.rs:182-210 | Accepts exactly a quorum's attestation for that height that lists the path with the value. |
| `Tendermint.UpdateAddsOnly` | contracts/soroban/light-clients/tendermint/src/lib.rs:153-180 | While stored heights are at most the latest, an update adds a consensus state, changes none and raises the latest height. |
| `Tendermint.InitialiseBelowLatest` | contracts/soroban/light-clients/tendermint/src/lib.rs:93-111 | Initialisation establishes that exactly when its height does not exceed the latest height. |
| `ClientTruth.TendermintDrivenExactly` | contracts/soroban/light-clients/tendermint/src/lib.rs:135-193 | Driven by the router, a live client takes exactly the headers that contradict a stored root, which freeze it, and those above its latest height, whose time, validators and application hash it stores, each in its place. |
| `ClientTruth.TendermintAcceptsExactly` | contracts/soroban/light-clients/tendermint/src/lib.rs:202-253 | Proofs are accepted exactly at a stored height of a client that is not frozen. |
| `ClientTruth.InitialisedAsGiven` | contracts/soroban/light-clients/tendermint/src/lib.rs:93-111 | Both clients store at creation what they are given, under the given height. |
| `TendermintContract.TendermintLightClient.Initialise` | contracts/soroban/light-clients/tendermint/src/lib.rs:93-111 | Writes the client and its first consensus state, or panics and changes nothing. |
| `TendermintContract.TendermintLightClient.CheckForMisbehaviour` | contracts/soroban/light-clients/tendermint/src/lib.rs:135-151 | Reports exactly a root that conflicts with the stored one. |
| `TendermintContract.TendermintLightClient.UpdateState` | contracts/soroban/light-clients/tendermint/src/lib.rs:153-180 | Writes the consensus state of a later header and returns its height, now the latest, or panics and changes nothing. |
| `TendermintContract.TendermintLightClient.UpdateStateOnMisbehaviour` | contracts/soroban/light-clients/tendermint/src/lib.rs:182-193 | Freezes at the latest height. |
| `TendermintContract.TendermintLightClient.VerifyMembership` | contracts/soroban/light-clients/tendermint/src/lib.rs:202-223 | Accepts exactly at a known height of a client that is not frozen. |
| `ClientUpdates.DrivenClient` | contracts/soroban/ibc-router/src/ics02_client.rs:96-143 | Behind the misbehaviour check, an update replaces no timestamp of an attestation client and no root of a tendermint client: a conflict freezes instead, and a frozen client refuses. |
| `ClientRuns.Created` | contracts/soroban/ibc-router/src/ics02_client.rs:27-58 | Creation never re-initialises an existing client. |
| `ClientRuns.RunHubTracks` | contracts/soroban/ibc-router/src/ics02_client.rs:96-143 | Over every run, a client stays at its contract, keeps what is stored, is frozen by the router or not at all, and is fixed once frozen. |
| `ClientRuns.ArisesInv` | contracts/soroban/ibc-router/src/ics02_client.rs:27-143 | Every state reached from deployed contracts keeps the invariant of router and clients; the rows below are about all such states. |
| `ClientRuns.ConsensusNeverChanges` | contracts/soroban/light-clients/attestation/src/lib.rs:124-173 | Over every run through the router, no stored timestamp of an attestation client and no stored root of a tendermint client changes, although `update_state` alone may overwrite. |
| `ClientRuns.FlagsAgreeExactly` | contracts/soroban/ibc-router/src/ics02_client.rs:96-143 | The router's frozen flag and the client's agree over every run after creation if and only if the client was created unfrozen. |
| `ClientRuns.FrozenForGood` | contracts/soroban/light-clients/attestation/src/lib.rs:140-173 | A frozen client stays frozen, with everything stored for it fixed. |
| `ClientRuns.FrozenTenderStops` | contracts/soroban/light-clients/tendermint/src/lib.rs:202-245 | After a tendermint client froze, no receive, acknowledgement or timeout through it succeeds, over every continuation. |
| `TenderConsensus.FixedExactly` | contracts/soroban/light-clients/tendermint/src/lib.rs:153-180 | The consensus states of a live client never change over any run if and only if none lies above its latest height. |
| `TenderConsensus.CreatedFixedExactly` | contracts/soroban/light-clients/tendermint/src/lib.rs:93-111 | A new client is write-once if and only if it is created at a height not above the latest height of its client state. |

## Left out

- Protobuf, XDR and JSON byte formats: messages are datatypes, and a message that does not decode is `None`.
- SHA-256 and Ed25519 internals: parameters, as described above.
- The JSON encoder of packet data (contracts/soroban/ibc-transfer/src/lib.rs:282-320): only its buffer limits are modelled; the gap to the XDR decoder is the hypothesis `Transfer.Inverts`.
- Proof checking inside the tendermint client, which accepts every proof at a known height: two-chain statements use the soundness hypothesis instead.
- The mock light client and `verify_client_message` of the Soroban light clients, which do nothing.
- The raw store setters of the router (contracts/soroban/ibc-router/src/lib.rs:86-122): storage primitives outside the step relation.
- Direct calls to a light-client contract that bypass the router.
- Re-entrant callbacks: the host forbids them, so a callback's effect on the router is its reply.
- Storage lifetime and archival, authorisation beyond "this address authorised the transaction", and event encoding.
- The protobuf envelopes around the wasm client's stored states (contracts/cosmwasm/light-client/src/store.rs:26-66) and its queries.
- State-tracker questions for ledgers below the last one processed: the answer is modelled, and nothing is claimed about which ledger it belongs to.
- `update` of the tree (crates/core/src/ibc/smt.rs:36-38), which is `insert`, and the index-free serialisers of crates/core/src/ibc/proof.rs:15-63.
- The API, gateway and RPC services, the `interstellar` command line, and the relayer.
