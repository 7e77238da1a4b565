# kRep verification model

A Dafny model of the four linked parts of kRep that carry its guarantees, with proofs over all inputs:

- **The escrow covenant** (`krep-escrow`): the nine branch generators and the dispatcher emit stack-machine
  bytes. The model parses those bytes, executes them on a small script machine, and proves that the compiled
  covenant accepts a spend exactly when one declarative rule holds. Whole runs of an escrow are then reasoned
  about in terms of those rules, and the client's transaction builders are proved to produce exactly what the
  covenant accepts.
- **The accumulators, the sponge and the circuit** (`krep-core/src/field.rs`, `krep-zk`): the fixed-depth and
  minimal-depth Merkle trees, the 256-level sparse tree, the byte encoding, the Noir re-implementation, the
  prover's witness, and what a satisfied circuit establishes.
- **The accumulator scan** (`krep-cli/src/roots.rs`, `krep-zk/src/scan.rs`): the two passes, the capacity check,
  saving and resuming, and its agreement with the payload rule and with the covenant's slash branch.
- **The attestation chain** (`krep-core/src/chain.rs`, `krep-core/src/lib.rs`): append and verify, three id
  schemes, and the head as a commitment to the whole history.

## How to read it

Cryptography enters as arbitrary functions: the sponge permutation, blake3, blake2b, key validity and signature
checking are parameters, and every theorem holds for all of them. Where the real argument is "unless a hash
collides", the theorem is a compiled function (or method) that returns the colliding inputs: `Break` for the
sponge (two different leaves, two different nodes, a leaf and a node, or a leaf or node hashing to zero),
`Incident` for blake2b, and `IdBreak` for attestation ids (two blake3 inputs, a
sponge break, or a blake3 value that is a squeezed element). An existence statement would say nothing, since
collisions always exist; a computed one does. No assumption of injectivity or collision resistance is made.

Code that the source writes as loops and mutation is a method, an array or a class here, proved against a
function (`SpongeByChunks` against `Sponge`, the branch generators against instruction lists, `SparseMerkleTree`
against the complete 256-level tree, `Build` in `RootsBuild` against `Carry`); the properties are lemmas about
those functions. Sort orders appear as an injective numbering of the sorted type, so `sort` followed by `dedup` is
`Canonical.SortDedup`.

Modules, in dependency order: `ByteStrings`, `FieldHash`, `Primitives`; `ScriptNumbers`, `ScriptVm`, `ScriptBytes`,
`EscrowState`, `Covenant`, `CovenantPieces`, `CovenantMeaning`, `Dispatcher`, `CovenantContract`, `EscrowRuns`,
`EscrowSafety`; `Canonical`, `Merkle`, `MerkleProofs`, `MerkleBinding`, `Smt`, `SmtProofs`; `Attestation`,
`AttestationChain`, `Circuit`, `Disclosure`; `Scan`, `Roots`, `RootsBuild`, `RootsResume`, `SavedScan`,
`RootsUpdate`, `DisclosureMeans`, `SlashLink`; `ClientTx`, `Client`, `ClientProofs`, `ClientCommands`, `ClientPayouts`,
`SplitRuns`, `HonestRun`, `Defaults`.

## Premises the theorems carry

- **`SmallTerms`**: `reward + bond`, the deadline and the release delay are below 2^63. The generators cast them
  with `as i64`, and the model keeps that cast (`ScriptNumbers.AsI64`).
- **`Unambiguous`** (whole runs): no move exhibits a blake2b collision, and each transaction spent has
  `OneRecord`: its bytes read as a record of this job at one place only, where its payload starts. The premise
  speaks of the transactions and not of what a spender supplies, so anyone can check it before building on one. It
  is exactly when the covenant's check pins the record, and cannot be dropped (see Findings). Statements about one move take `Bound`: `OneRecord`,
  or a spender who supplies the real record, as the client always does.
- **Script machine**: opcode numbers, stack behaviour, the clean-stack rule, push minimality and the two timelock
  opcodes (both pop their argument) follow the external script library, which is not part of this model. Pushing
  the single byte 0 is a one-byte push; pushing 1 to 16 is the short opcode.
- **`SignsFor`** (client): a signature made over the unsigned transaction is good for the filled-in one under the
  signer's own key and no other.
- **`Setting`** (resuming a scan): the long scan counts the bodies its halves count, and a transaction id determines
  its payload. What else the scans page in may differ. `ResumeDiffersOnlyBy` states exactly what differs when the two
  do not know the same escrows; `SameKnowledge` is the case where nothing does.

## Findings

Properties the repository states that do not hold of the code: a failing input, and when the property does hold. "Iff"
marks a condition proved in both directions.

| promised | fails | holds |
|---|---|---|
| supplied state is as good as authenticated state (`krep-escrow/src/lib.rs:30-36`, `krep-escrow/src/script.rs:41-45`) | hashing `rest ‖ payload` does not fix where the two are cut. `SplitRuns.UnshippedRelease`: a claim with an extra output whose script starts a SHIPPED record is followed by an auto-release that pays the whole value to the key in that script, though nobody shipped. `SplitRuns.UnshippedHappens`: such a run exists for all terms and keys | iff the transaction has `OneRecord` (`EscrowRuns.OneRecordDecides`); run safety is proved under it |
| at least `min_successes` anchored attestations (`krep-zk/circuit/src/main.nr:3-6`) | slots may repeat. `Disclosure.RepeatSatisfies`: one success in all four slots satisfies every constraint for a minimum of four | iff the minimum is 0 or 1, or above four, where nothing is accepted (`Disclosure.MinimumMeansOne`); for one proof, when its slots differ (`Disclosure.ShowsMembers`) |
| a default is read only when the spend really took the slash branch of a claimed escrow; any other spend yields nothing (`krep-zk/src/scan.rs:161-162`) | the scan looks at the payload spent from and the item below the script, never at the output. `Defaults.RecordedWithoutCovenant`: a payload that reads as a CLAIMED record, and a spend of any output beside it whose script pushes a seven and one more item, with no covenant anywhere | a default is recorded iff `Defaults.LooksSlashed` (`RecordedExactlyWhen`); then the slash branch really ran iff the output spent is the escrow of the terms (`Defaults.TookSlashExactlyWhen`) |
| the pseudonym a default lands on is authenticated and cannot be set to somebody else's identity (`krep-escrow/src/state.rs:24-29`, `krep-escrow/src/script.rs:79-83`) | `Defaults.SlashWithoutClaim`: a covenant output funded directly with a CLAIMED record is slashed with the buyer's signature alone and the default recorded. `SplitRuns.ShipMayRename`: a shipment signed by the maker alone writes any pseudonym | if the record's transaction is itself an accepted claim from OPEN, one step back, a recorded default is a slash and its pseudonym signed that claim (`Defaults.DefaultSigned`; over whole runs `EscrowSafety.SlashedSignedTheClaim`) |
| the new state is a well-formed CLAIMED record (`krep-escrow/src/script.rs:74-75`), as decoding enforces (`krep-escrow/src/state.rs:182-185`) | `Defaults.SlashUnrecorded`: a claim naming a payment key that is no key is accepted and slashed, and no script spending it names anybody, so the default is never recorded. `SplitRuns.ShipMayRename` at lock time 0: an accepted shipment that does not decode | for every accepted move that stays in the covenant, its record decodes iff its keys are keys, a shipment has a lock time, and a dispute contests a record that decodes (`SlashLink.AcceptedDecodes`); a slash is recorded iff the record's keys are keys and nothing was shipped (`SlashLink.SlashReachesAccumulator`) |
| auto-release waits for the delay (`krep-escrow/src/script.rs:351-357`) | only the low 32 bits count. `SplitRuns.EarlyRelease`: with a delay of 2^32 or more, an accepted auto-release at a sequence short of it | iff the delay is below 2^32 (`EscrowRuns.DelayHolds`) |
| the verifier's payload rule and the scan's stay identical (`krep-core/src/kaspad.rs:426-428`) | an id committed only past the first 4096 bytes verifies and is not indexed | per id, iff it is not committed only there (`Scan.RulesAgreeExactlyWhen`) |

## Where documentation and code differ

- `krep-escrow/src/script.rs:3-10` describes the script as incremental; all nine branches are present and modelled.
- The circuit's header and the repository's `README.md:768` promise a count of attestations; the circuit counts slots
  (see Findings).
- `krep-cli/src/prove.rs:317-318` says unused witness slots repeat slot zero; the code repeats slot `used - 1` with
  leaf index 0, and `Disclosure.LaidOut` says so. The circuit ignores unused slots either way.
- The other differences are the rows of Findings.

## Model

| member | source | states |
|---|---|---|
| FieldHash.SpongeByChunks | krep-core/src/field.rs:67-77 | the chunked loop computes the recursive sponge for every permutation, tag and input |
| FieldHash.OneBlock | krep-core/src/field.rs:69-75 | a block is added into the state element by element and the permutation is applied once |
| FieldHash.AbsorbCat | krep-core/src/field.rs:69-75 | blocks are absorbed one after the other |
| FieldHash.BlockInjective | krep-core/src/field.rs:70-72 | absorbing a block forgets nothing of it |
| FieldHash.DifferentStates | krep-core/src/field.rs:67-77 | where two filled inputs first differ, the permutation is applied to two different states |
| FieldHash.NodeIs | krep-core/src/field.rs:98-100 | a node is one permutation of its children, a zero and the node tag |
| FieldHash.ShortLeafIs | krep-core/src/field.rs:85-96 | a value of up to sixteen bytes is one permutation of its number, its length, a zero and the leaf tag |
| FieldHash.AbsorbFill | krep-core/src/field.rs:67-77 | the sponge cannot tell an input from its zero-filled form, so injectivity must come from the encoding |
| FieldHash.EncodeByChunks | krep-core/src/field.rs:85-96 | right-aligned 16-byte chunks read big-endian, then the length, are exactly the tagged limbs of the value |
| FieldHash.LimbsInjective | krep-core/src/field.rs:57-64 | equal-length byte strings with equal limbs are equal |
| FieldHash.EncodingInjective | krep-core/src/field.rs:79-117 | with the length absorbed, encodings agree after the zero-fill exactly when the values are equal |
| FieldHash.ToBe32Injective | krep-core/src/field.rs:125-131 | serialising a field element to 32 bytes loses nothing |
| FieldHash.NodeCollision | krep-core/src/field.rs:98-100 | two different child pairs with one parent are a genuine sponge break |
| FieldHash.LeafCollision | krep-core/src/field.rs:85-96 | two different values with one leaf hash are a genuine sponge break, through the encoding |
| FieldHash.CrossCollision | krep-core/src/field.rs:79-100 | a leaf hash equal to a node hash is a genuine break across the two domain tags |
| Merkle.PairUp | krep-zk/src/merkle.rs:62-75 | the pairing loop hashes each pair, filling an odd end with the padding or with itself |
| Merkle.BuildFixedDepth | krep-zk/src/merkle.rs:48-77 | builds the sorted, de-duplicated tree level by level; fails exactly when the distinct hashes exceed the slots |
| Merkle.Build | krep-zk/src/merkle.rs:81-106 | builds the minimal-depth tree, halving until one node is left |
| Merkle.FixedRootIsPaddedRoot | krep-zk/src/merkle.rs:40-77 | hashing only the occupied prefix gives the root of the tree over all 2^depth slots, for every leaf list that fits |
| MerkleProofs.Verify | krep-zk/src/merkle.rs:157-165 | the index-and-node loop is the fold along the path |
| MerkleProofs.Prove | krep-zk/src/merkle.rs:120-146 | a proof exists exactly for members, is as long as the tree is high, names the member's slot and verifies |
| MerkleProofs.Sound | krep-zk/src/merkle.rs:157-165 | whatever verifies against the root, at any path length, is a member, or a break is computed; both tree shapes |
| MerkleProofs.FixedIsLinked | krep-zk/src/merkle.rs:48-77 | the fixed-depth construction gives the level-by-level links soundness needs |
| MerkleProofs.MinimalIsLinked | krep-zk/src/merkle.rs:88-106 | so does the minimal-depth construction |
| MerkleProofs.BuiltOver | krep-zk/src/merkle.rs:48-106 | a built tree stands over exactly the values it was given |
| MerkleBinding.FixedBinding | krep-zk/src/merkle.rs:48-77 | fixed-depth trees of one depth with equal roots hold equal sets, or a break is computed |
| MerkleBinding.MinimalBinding | krep-zk/src/merkle.rs:81-106 | minimal-depth trees with equal roots hold equal sets whatever their sizes, or a break is computed |
| MerkleBinding.RepeatBreaks | krep-zk/src/merkle.rs:88-106 | self-pairing an odd node is safe: a repeated node above distinct leaves is a collision |
| MerkleBinding.LeavesDependOnSet | krep-zk/src/merkle.rs:48-53 | order and repetition of the values never reach the tree |
| Canonical.SortDedupCanonical | krep-zk/src/merkle.rs:49-52 | sorting with de-duplication depends only on which elements are present |
| Smt.KeyFromBits | krep-zk/src/smt.rs:98-103 | the 256 bits read from a key determine it |
| Smt.EmptySubtree | krep-zk/src/smt.rs:60-70 | a subtree of the complete tree without members hashes to the precomputed empty value |
| SmtProofs.SparseMerkleTree.Insert | krep-zk/src/smt.rs:74-76 | adds one key and keeps every entry committing to its key |
| SmtProofs.SparseMerkleTree.InsertAll | krep-zk/src/smt.rs:78-84 | the key set becomes the old set together with the given keys |
| SmtProofs.SparseMerkleTree.Subtree | krep-zk/src/smt.rs:110-127 | the prefix-filtered recursion equals the node of the complete 256-level tree |
| SmtProofs.SparseMerkleTree.Root | krep-zk/src/smt.rs:129-131 | the root is the complete tree's root over the key set |
| SmtProofs.SparseMerkleTree.Prove | krep-zk/src/smt.rs:134-147 | every proof verifies against the root, and proves absence exactly when the key is absent |
| SmtProofs.Verify | krep-zk/src/smt.rs:152-165 | the level loop accepts exactly the paths of 256 siblings that climb to the root |
| SmtProofs.ProofSound | krep-zk/src/smt.rs:152-165 | a verifying proof carries the key's true slot value, or a break is computed |
| SmtProofs.AbsenceSound | krep-zk/src/smt.rs:168-170 | a verifying absence proof for a member yields a node collision or a key whose leaf hash is zero |
| SmtProofs.SetsDiffer | krep-zk/src/smt.rs:106-131 | from a key in one set only, equal roots yield a break |
| SmtProofs.SetBinding | krep-zk/src/smt.rs:106-131 | two different sets with one root yield a break |
| Attestation.BodyFields | krep-core/src/lib.rs:234-248 | every field sits at its fixed offset of the 152 canonical bytes |
| Attestation.BodyTags | krep-core/src/lib.rs:73-103 | role and outcome are the bytes 0 and 1, and 0, 1 and 2 |
| Attestation.ValidExactlyWhen | krep-core/src/lib.rs:257-272 | fields validate iff version and bucket are known, the parties differ, and a predecessor is present exactly past index 0 |
| Attestation.AcceptedExactlyWhen | krep-core/src/lib.rs:404-431 | an attestation verifies iff its body is sane and both parties signed the body's digest, or a covenant with a script speaks for an outcome other than success |
| Attestation.ValidBodyBytesInjective | krep-core/src/lib.rs:234-272 | on validated bodies the canonical bytes determine the body, including the absent predecessor |
| Attestation.WitnessBytesInjective | krep-core/src/lib.rs:302-311 | the length-prefixed covenant witness encoding is injective |
| Attestation.WitnessFields | krep-core/src/lib.rs:303-310 | length, script, branch and offset sit where the encoding puts them |
| Attestation.IdsAre | krep-core/src/lib.rs:370-396 | v1 ids are blake3, v2 ids the sponge, covenant ids blake3 under a domain of their own, each over body and authorisation |
| Attestation.IdsMeet | krep-core/src/lib.rs:370-396 | two attestations hashing different messages to one id yield two blake3 inputs, a sponge break, or a blake3 value that is a squeezed element |
| Attestation.PreimageInjective | krep-core/src/lib.rs:370-396 | across the three id schemes, validated attestations with one hash preimage are equal |
| Attestation.SpongedCollision | krep-core/src/lib.rs:372-381 | two different v2 messages with one id give a sponge break |
| AttestationChain.Chain.Append | krep-core/src/chain.rs:26-50 | accepts exactly what keeps the chain linked, and changes nothing otherwise |
| AttestationChain.Chain.Verify | krep-core/src/chain.rs:54-76 | accepts exactly the linked chains whose timestamps never decrease |
| AttestationChain.Chain.VerifyAnchored | krep-core/src/chain.rs:80-108 | accepts exactly when every entry is also anchored and authorised; otherwise reports the first failing entry |
| AttestationChain.BuiltByAppends | krep-core/src/chain.rs:26-76 | a chain is built by accepted appends exactly when it is linked, so verify adds only the timestamp order |
| AttestationChain.HeadsDiffer | krep-core/src/chain.rs:21-76 | linked chains with equal heads are identical, length included, or a break of blake3, of the sponge, or across them is returned |
| AttestationChain.LinkedIsSigned | krep-core/src/chain.rs:47-71 | in a linked chain every entry is signed by owner and counterparty or speaks through a covenant, and every success is signed by both |
| AttestationChain.AnchoredExactlyWhen | krep-core/src/chain.rs:84-105 | an entry passes iff its own id is anchored at its own outpoint and a covenant entry is witnessed there for its owner; an unknown answer is never a negative |
| Circuit.NoirSponge | krep-zk/circuit/src/hash.nr:17-30 | the nested index loops compute the same sponge as the chunked loop |
| Circuit.Pack16 | krep-zk/circuit/src/attestation.nr:28-36 | the accumulator loop packs a slice as one limb |
| Circuit.NoirIdV2 | krep-zk/circuit/src/attestation.nr:43-64 | packing across body and signatures absorbs the same fields as the native id |
| Circuit.NoirAnchorLeaf | krep-zk/circuit/src/attestation.nr:70-91 | the leaf assembled byte by byte hashes as the native leaf of outpoint and id |
| Circuit.Owner | krep-zk/circuit/src/attestation.nr:94-100 | the copied owner is the owner slice of the body |
| Circuit.PseudonymBits | krep-zk/circuit/src/main.nr:124-132 | bit for bit the sparse tree's indexing of a key |
| Circuit.ToLeBits | krep-zk/circuit/src/main.nr:136-137 | decomposes exactly the indices below 2^20 |
| Circuit.NoirMerkleRoot | krep-zk/circuit/src/main.nr:136-147 | walking the bits of the index is the native path fold |
| Circuit.MainConstraints | krep-zk/circuit/src/main.nr:58-119 | the asserted loops accept exactly the inputs satisfying the declarative constraints, slot by slot |
| Disclosure.SlotSound | krep-zk/circuit/src/main.nr:80-103 | an accepted used slot is an owned success whose leaf is in the set, or a break is computed |
| Disclosure.LeavesMatch | krep-zk/circuit/src/attestation.nr:43-91 | different attestations have different leaves, so the leaves are as many, or a break is computed |
| Disclosure.CircuitSound | krep-zk/circuit/src/main.nr:77-118 | against roots of a leaf set and a default set: the pseudonym has not defaulted, every used slot is genuine, and the slots show as many members of the set as they hold different attestations, so at least the minimum when no slot repeats another; or a break is computed |
| Disclosure.RepeatSatisfies | krep-zk/circuit/src/main.nr:3-6 | one success repeated in every slot satisfies every constraint under the same roots for any minimum up to four |
| Disclosure.MinimumMeansOne | krep-zk/circuit/src/main.nr:77-78 | where some claim with a used slot is accepted, every accepted claim of a minimum shows that many different attestations iff the minimum is at most 1 or above four |
| Disclosure.PicksAreFirst | krep-cli/src/prove.rs:249-291 | the entries used are the first usable ones in chain order, at most four, missing none while there is room |
| Disclosure.SameLeafBytes | krep-cli/src/prove.rs:267-268 | the leaf the circuit rebuilds from body bytes is the leaf the accumulator indexes |
| Disclosure.Gather | krep-cli/src/prove.rs:249-291 | the walk gathers exactly those entries with verifying paths of the circuit's depth |
| Disclosure.Witness | krep-cli/src/prove.rs:225-343 | refuses exactly defaulters; otherwise success is decided by the number of usable entries, and on a linked chain its output satisfies every constraint with pairwise distinct slots and min <= used <= 4 |
| Disclosure.SlotsDistinct | krep-cli/src/prove.rs:225-343 | entries of a linked chain at different positions have different bodies |
| DisclosureMeans.DisclosureBreak | krep-zk/circuit/src/main.nr:1-119 | end to end, against roots scanned from a window: every used slot is the prover's own success settled by an accepted transaction, there are as many such settlements as the slots hold different attestations (at least the minimum when no slot repeats another), and no slash of the window names the prover, or a break is computed |
| DisclosureMeans.LeafIsAnchorLeaf | krep-zk/circuit/src/attestation.nr:70-91 | the circuit's leaf bytes are the scan's leaf for the outpoint inside the body |
| DisclosureMeans.PublicInputsInjective | krep-cli/src/prove.rs:192-198 | the 96 public-input bytes fix both roots and the count |
| DisclosureMeans.PublicInputsRead | krep-cli/src/prove.rs:192-198 | the three 32-byte parts read back big-endian as the anchored root, the defaults root and the count |
| EscrowState.TermsBytesInjective | krep-escrow/src/lib.rs:135-156 | the canonical bytes determine the terms, with and without an arbiter |
| EscrowState.TermsIdBinds | krep-escrow/src/lib.rs:160-164 | different word-sized terms have one id exactly when their bytes are two messages with one blake3 value |
| EscrowState.ClaimedValueSaturates | krep-escrow/src/lib.rs:167-169 | the claimed value is the sum, or the largest 64-bit number |
| EscrowState.Encode | krep-escrow/src/state.rs:114-131 | copying each field into a zeroed buffer writes the 142-byte record |
| EscrowState.DecodeEncode | krep-escrow/src/state.rs:114-219 | a record survives writing and reading exactly when it agrees with its phase and its tracking hash is not all zero |
| EscrowState.EncodeDecode | krep-escrow/src/state.rs:133-180 | whatever decodes re-encodes to the same bytes and agrees with its phase |
| ScriptNumbers.NumRoundTrip | krep-escrow/src/script.rs:131-141 | every number the generators push reads back as itself in at most eight bytes |
| ScriptNumbers.DecodeUnique | krep-escrow/src/script.rs:536-541 | a number has one accepted rendering, so a selector has one |
| ScriptBytes.ReadPush | krep-escrow/src/tx.rs:118-139 | a push is read back as written whatever bytes follow |
| ScriptBytes.ParseEncoded | krep-escrow/src/script.rs:535-552 | parsing undoes encoding; a byte inside push data is never read as an instruction |
| CovenantPieces.VerifyPrevStateRuns | krep-escrow/src/script.rs:46-57 | leaves the supplied payload exactly when the halves hash to the spent outpoint's transaction |
| CovenantPieces.AuthenticateRuns | krep-escrow/src/script.rs:175-189 | also demands the phase byte and the terms id of the supplied record |
| CovenantPieces.RequireP2pkOutputRuns | krep-escrow/src/script.rs:156-171 | demands output 0 pay the key on the stack the exact amount |
| Covenant.ClaimBranch | krep-escrow/src/script.rs:84-143 | the builder calls emit the claim instruction list |
| Covenant.ShipBranch | krep-escrow/src/script.rs:213-267 | the builder calls emit the ship instruction list |
| Covenant.SettleBranch | krep-escrow/src/script.rs:276-296 | the builder calls emit the settle instruction list |
| Covenant.RefundBranch | krep-escrow/src/script.rs:306-322 | the builder calls emit the refund instruction list |
| Covenant.SlashBranch | krep-escrow/src/script.rs:333-349 | the builder calls emit the slash instruction list |
| Covenant.AutoReleaseBranch | krep-escrow/src/script.rs:358-378 | the builder calls emit the auto-release instruction list |
| Covenant.DisputeBranch | krep-escrow/src/script.rs:389-425 | emitted exactly when the terms name an arbiter |
| Covenant.ResolveBranch | krep-escrow/src/script.rs:445-483 | emitted exactly when the terms name an arbiter, for either beneficiary |
| CovenantMeaning.ClaimMeaning | krep-escrow/src/script.rs:84-143 | the program accepts iff: authentic OPEN record of this job, pseudonym's signature, well-formed CLAIMED record naming a maker, same covenant, amount grown by the bond |
| CovenantMeaning.ShipMeaning | krep-escrow/src/script.rs:213-267 | iff: authentic CLAIMED record, recorded maker's signature, maker kept, tracking hash present, ship time equal to the lock time, same output |
| CovenantMeaning.SettleMeaning | krep-escrow/src/script.rs:276-296 | iff: authentic SHIPPED record, buyer's signature, full value to the recorded maker, 64-byte payload |
| CovenantMeaning.RefundMeaning | krep-escrow/src/script.rs:306-322 | iff: authentic OPEN record, deadline met, buyer's signature, empty payload, reward to the buyer |
| CovenantMeaning.SlashMeaning | krep-escrow/src/script.rs:333-349 | iff: authentic CLAIMED record, deadline met, buyer's signature, full value to the buyer, 64-byte payload |
| CovenantMeaning.AutoReleaseMeaning | krep-escrow/src/script.rs:358-378 | iff: authentic SHIPPED record, delay met, recorded maker's signature, full value to that maker |
| CovenantMeaning.DisputeMeaning | krep-escrow/src/script.rs:389-425 | iff: authentic SHIPPED record, buyer's signature, DISPUTED record otherwise unchanged, same output |
| CovenantMeaning.ResolveMeaning | krep-escrow/src/script.rs:445-483 | iff: authentic DISPUTED record, arbiter's and beneficiary's signatures, full value to that beneficiary |
| Dispatcher.DispatchRuns | krep-escrow/src/script.rs:535-552 | for any arm list, a selector runs exactly its arm on the remaining stack, and an unknown one leaves false on top |
| Dispatcher.DispatchNeedsNumber | krep-escrow/src/script.rs:535-541 | an empty stack or a selector that is no number fails |
| Dispatcher.FlatIsNested | krep-escrow/src/script.rs:535-552 | the flat emission, heads first and END-IFs last, is the nested chain |
| Dispatcher.CovenantScript | krep-escrow/src/script.rs:519-553 | the arm loop emits the covenant's bytes |
| CovenantContract.CovenantParses | krep-escrow/src/script.rs:519-553 | the emitted bytes parse to the nested chain whatever the push data contains |
| CovenantContract.ChooseMeaning | krep-escrow/src/script.rs:500-533 | each number picks its own branch, only when the terms offer it, and every other number picks none |
| CovenantContract.CovenantMeans | krep-escrow/src/script.rs:46-553 | the compiled covenant accepts a spend iff the top item selects an offered branch and that branch's rule holds below it |
| CovenantContract.CovenantIsSmall | krep-escrow/src/script.rs:519-553 | the compiled covenant fits a push whatever the terms |
| EscrowRuns.SplitDecidesRecord | krep-escrow/src/script.rs:41-57 | the supplied record is the real one exactly when it is as long, up to a collision |
| EscrowRuns.OneRecordDecides | krep-escrow/src/lib.rs:30-36 | every cut that authenticates and reads as a record is the transaction's own payload iff its bytes read as a record at one place only |
| EscrowRuns.RecordIsReal | krep-escrow/src/script.rs:41-57 | under that condition an accepted, collision-free spend supplied the real record, whoever made it |
| EscrowRuns.SequenceMeans | krep-escrow/src/script.rs:364-364 | the delay opcode compares the low 32 bits of delay and sequence, for every delay the terms can carry |
| EscrowRuns.LockTimeMeans | krep-escrow/src/script.rs:313-313 | the lock-time opcode accepts exactly times of one kind that are not before it, on an input that is not final |
| EscrowRuns.DelayHolds | krep-escrow/src/script.rs:351-357 | meeting the opcode means waiting out the delay iff the delay is below 2^32 |
| EscrowRuns.MoveObeysRule | krep-escrow/src/script.rs:519-558 | an accepted spend of the script-hash output obeys the rule of the branch its selector names, or a collision is computed |
| EscrowRuns.MoveHasEffect | krep-escrow/src/script.rs:84-483 | an accepted move on a bound record has its branch's effect on the two transactions, from the phase the record was in, the auto-release wait included |
| EscrowSafety.RunFollowsEdges | krep-escrow/src/state.rs:223-233 | a run has at most four moves, holds the reward while OPEN and reward plus bond afterwards, and follows the phase edges |
| EscrowSafety.EdgesAreLegal | krep-escrow/src/state.rs:223-233 | the record's transition rule allows exactly the edges some branch takes |
| EscrowSafety.MakerNeverChanges | krep-escrow/src/script.rs:213-267 | the payment key named at claim is non-zero and the one on record at every later point |
| EscrowSafety.RunPaysRightly | krep-escrow/src/script.rs:276-483 | a run that ends pays all it held to the buyer or to that maker, the maker only after a shipment it signed, an auto-release only after the delay, the bond to the buyer only by slash at or after the deadline or by arbiter |
| EscrowSafety.SlashedSignedTheClaim | krep-escrow/src/script.rs:79-83 | in a run from an OPEN output, the pseudonym a slash lands on is the one the claim wrote, and it signed that claim |
| EscrowSafety.NoArbiterNoDispute | krep-escrow/src/script.rs:527-533 | without an arbiter a run never reaches DISPUTED and has at most three moves |
| SplitRuns.MoveAccepted | krep-escrow/src/tx.rs:118-139 | a move built from its parts unlocks iff the branch is offered and its rule holds; cutting the transaction's own bytes anywhere exhibits no collision |
| SplitRuns.SplitIsNotBound | krep-escrow/src/script.rs:41-57 | a CLAIMED transaction that also reads as SHIPPED is auto-released to the key of that other reading: accepted, collision-free, unshipped |
| SplitRuns.ClaimBesideAccepted | krep-escrow/src/script.rs:84-143 | a claim is accepted whatever a further output carries |
| SplitRuns.UnshippedRelease | krep-escrow/src/lib.rs:30-36 | from any opening, a two-move run the covenant accepts pays the whole value to a chosen key without a shipment, when ids cover the output scripts |
| SplitRuns.UnshippedHappens | krep-escrow/src/lib.rs:30-36 | for all terms and keys such a run exists, so the premise of the safety theorems cannot be dropped |
| SplitRuns.ShipMayRename | krep-escrow/src/script.rs:213-267 | with the maker's signature alone a shipment is accepted that names any other pseudonym |
| SplitRuns.EarlyRelease | krep-escrow/src/script.rs:358-378 | for every delay of 2^32 or more, an accepted auto-release at a sequence short of the delay |
| HonestRun.SettledRunHappens | krep-escrow/src/lib.rs:11-15 | for all terms a run that is claimed, shipped and settled meets every premise of the safety theorems |
| Scan.AnchorLeafInjective | krep-zk/src/scan.rs:34-40 | leaves are equal exactly when outpoint and id are |
| Scan.LeavesForTx | krep-zk/src/scan.rs:67-80 | the nested loops produce one leaf per spent outpoint and aligned slot of the first 4096 bytes |
| Scan.LeafMeansCommitment | krep-zk/src/scan.rs:34-80 | a leaf is indexed exactly when the transaction spends the outpoint and its scanned payload commits the id |
| Scan.ScanAgreesWithVerifier | krep-core/src/kaspad.rs:434-436 | indexed implies committed at any size; the two agree unless the commitment lies past 4096 bytes |
| Scan.RulesAgreeExactlyWhen | krep-core/src/kaspad.rs:426-428 | per id, the two rules agree iff it is not committed only past the first 4096 bytes |
| Scan.ParsePushes | krep-zk/src/scan.rs:92-133 | the advancing walk reads exactly the push-only scripts |
| Scan.ReadExactlyWhen | krep-zk/src/scan.rs:92-133 | a script is read iff it is complete pushes to its end |
| Scan.NumberRead | krep-zk/src/scan.rs:138-152 | a selector is read little-endian from up to eight bytes, and from no more |
| Scan.ParseUndoesPush | krep-zk/src/scan.rs:92-133 | parsing undoes the push encoding for every list of data |
| Scan.NoMagicNoDefault | krep-zk/src/scan.rs:163-179 | a payload without the magic names no default, so dropping it loses none |
| Roots.PassOne | krep-cli/src/roots.rs:107-127 | the acceptance loop follows the chain for a budget, and what it returns is what some number of replies say |
| Roots.FollowReads | krep-cli/src/roots.rs:111-127 | after n replies: an id is accepted iff some block of those replies lists it; the end is the last block added, or the start; the tip is reached iff reply n did not advance, and otherwise n is the budget |
| Roots.FetchedReads | krep-cli/src/roots.rs:141-208 | the bodies are exactly the transactions of the replies up to the first that is empty, holds the end block or goes no further |
| Roots.SpentAreOutpoints | krep-cli/src/roots.rs:160-164 | a body spends exactly the outpoints of its inputs |
| Roots.FollowSplits | krep-cli/src/roots.rs:107-127 | stopping at a budget and resuming there accepts and reaches what one longer walk does |
| RootsBuild.TakeTx | krep-cli/src/roots.rs:149-193 | one body's effect on leaves, payloads and pending slashes; gives up exactly when the distinct leaves no longer fit |
| RootsBuild.OutgrowsStays | krep-cli/src/roots.rs:166-185 | a set that has outgrown the tree never fits again, so failing early is failing |
| RootsBuild.PassTwo | krep-cli/src/roots.rs:129-208 | over the replies up to the end block: fails exactly when the set outgrows the tree, else holds exactly what those bodies determine |
| RootsBuild.Build | krep-cli/src/roots.rs:100-244 | the finished scan's leaves, defaults, escrows and trees are exactly those its window and seed determine, with every failure characterised |
| RootsResume.PayloadsKnow | krep-cli/src/roots.rs:154-154 | the payload map holds what some body or the seed shows, in any order |
| RootsResume.CarriedEscrows | krep-cli/src/roots.rs:221-226 | what is carried to the next update is every known payload that starts with the magic, and no other |
| RootsResume.DefaultedMeans | krep-cli/src/roots.rs:187-219 | a pseudonym is recorded exactly when seeded or named by a counted slash of a known escrow |
| RootsResume.ResumeDiffersOnlyBy | krep-cli/src/roots.rs:23-39 | a resumed scan and a long one that count the same bodies differ in defaults exactly by slashes whose escrow one of them can look up and the other cannot |
| RootsResume.ResumeAgrees | krep-cli/src/roots.rs:100-244 | when they know the same escrows, leaves and defaults are equal, whatever else the scans page in |
| RootsResume.ResumeEqualsRescan | krep-cli/src/roots.rs:100-244 | when the long scan also shows no other bodies and no escrow is late, everything carried is equal, the escrows included |
| RootsResume.ResumeFits | krep-cli/src/roots.rs:166-185 | the two-step scan succeeds exactly when the long one does |
| RootsResume.SameLeavesSameRoot | krep-cli/src/roots.rs:228-239 | equal carried leaves give equal anchored roots |
| RootsResume.ScannedLeafMeans | krep-cli/src/roots.rs:141-208 | a leaf is in a fresh scan exactly when an accepted body of the window spends that outpoint and commits that id |
| SavedScan.FromScan | krep-cli/src/prove.rs:75-98 | saving loses nothing a resumed scan needs, and the file's roots are those of its own lists when they fit |
| SavedScan.Trees | krep-cli/src/prove.rs:131-167 | loading succeeds exactly on files whose lists fit and hash to the recorded roots |
| SavedScan.SameRootsSameSets | krep-cli/src/prove.rs:124-167 | two loadable files of one depth with the same roots hold the same leaves and defaults, or a break is computed |
| RootsUpdate.AccumulatorsAgree | krep-cli/src/roots.rs:228-243 | finished scans over such windows agree on leaves, defaults and both roots |
| RootsUpdate.RescanAgrees | krep-cli/src/main.rs:1714-1755 | scanning, saving, and updating from the file, against one scan, each with its own replies and whether or not the first reached the tip: they succeed together and agree on leaves, defaults and both roots |
| RootsUpdate.UpdateAgrees | krep-cli/src/roots.rs:100-244 | over one list of replies, with the first scan stopped on its budget, they also end at the same block |
| SlashLink.ScanReadsSigItems | krep-zk/src/scan.rs:92-133 | whatever a push-only script leaves on the covenant's stack, the scan reads |
| SlashLink.SelectorSeen | krep-zk/src/scan.rs:138-152 | the scan recovers the branch of every move the covenant lets through |
| SlashLink.DefaultIsSlash | krep-zk/src/scan.rs:163-179 | among accepted moves on an escrow with a bound record, the scan names a default exactly when the slash branch ran and the record decodes, and then the recorded pseudonym |
| SlashLink.RecordDecodes | krep-escrow/src/state.rs:133-180 | a record past OPEN decodes iff both its keys are keys and its shipment fields fit its phase |
| SlashLink.OpenRecordDecodes | krep-escrow/src/state.rs:187-194 | an OPEN record decodes iff everything after the job's id is zero |
| SlashLink.AcceptedDecodes | krep-escrow/src/script.rs:74-75 | for every accepted move that stays in the covenant, its record decodes iff its keys are keys, a shipment has a lock time, and a dispute contests a record that decodes |
| SlashLink.SlashReachesAccumulator | krep-cli/src/roots.rs:187-219 | an accepted slash on a bound record, in a window that knows its escrow, puts the recorded pseudonym in the default set iff the record's keys are keys and nothing was shipped, or something else names it |
| Defaults.RecordedExactlyWhen | krep-zk/src/scan.rs:163-179 | a default is recorded iff the item below the script reads 7 and the payload decodes past OPEN, and it is bytes 70 to 102 |
| Defaults.TookSlashExactlyWhen | krep-zk/src/scan.rs:161-162 | the accepted spend behind a recorded default took the slash branch iff it spends the escrow of those terms |
| Defaults.RecordedWithoutCovenant | krep-zk/src/scan.rs:161-162 | two bodies with no covenant output between them put any pseudonym in the default set |
| Defaults.SlashBuilt | krep-escrow/src/script.rs:333-349 | the buyer's slash of whatever holds the escrow as CLAIMED is accepted |
| Defaults.SlashWithoutClaim | krep-escrow/src/script.rs:79-83 | a directly funded CLAIMED record is slashed with the buyer's signature alone, and a pseudonym that signed nothing is recorded |
| Defaults.DefaultSigned | krep-escrow/src/state.rs:24-29 | when the record's transaction is an accepted claim from OPEN, a recorded default is a slash and its pseudonym signed that claim |
| Defaults.SlashUnrecorded | krep-escrow/src/script.rs:74-75 | an accepted claim naming a non-key, and its accepted slash, after which no script spending the claim names anybody |
| ClientTx.SignatureScript | krep-escrow/src/tx.rs:118-139 | the builder loop pushes the signatures bottom first, then rest, payload, selector and script |
| ClientTx.Build | krep-escrow/src/tx.rs:71-144 | signs against the skeleton with empty scripts and fills the scripts in |
| ClientTx.SigItemsBuilt | krep-escrow/src/tx.rs:118-139 | the items consensus sees are the data that was pushed |
| ClientTx.BuiltUnlocks | krep-escrow/src/tx.rs:71-144 | a built covenant input unlocks exactly when the branch is offered and its rule holds of the supplied state and signatures |
| Client.Largest | krep-cli/src/escrow.rs:275-282 | picks a largest output above the need, and fails exactly when none is |
| Client.Transition | krep-cli/src/escrow.rs:215-321 | refuses exactly when the lock time is not strictly past or no funds suffice; otherwise one covenant input, one fee input, the order's output and the change |
| ClientProofs.StepUnlocks | krep-cli/src/escrow.rs:286-308 | the covenant input of a built step unlocks exactly when its branch's rule holds; the supplied record is the real one |
| ClientProofs.FeeInputSigned | krep-escrow/src/tx.rs:121-122 | the fee input carries the wallet key's own signature over the step and nothing else; the outputs given to the signer are the ones the step spends |
| ClientCommands.FeeOnly | krep-cli/src/escrow.rs:284-306 | a step loses only the fee exactly when its output is what was held plus what was added |
| ClientCommands.OpenEscrow | krep-cli/src/escrow.rs:149-210 | opens with the reward and the OPEN record, loses only the fee, and leaves a consistent record |
| ClientCommands.FundingIsOwn | krep-cli/src/escrow.rs:271-284 | the fee is paid from the node's list, or from the escrow's own change when that pays this key |
| ClientCommands.ClaimEscrow | krep-cli/src/escrow.rs:323-357 | the new record names the given payment key and the signing pseudonym; accepted exactly from OPEN; then loses only the fee and leaves a consistent CLAIMED record |
| ClientCommands.ShipGoods | krep-cli/src/escrow.rs:359-405 | never too early; the new record holds the given tracking hash, the score less 64 and the parties already named; accepted exactly from CLAIMED for the recorded maker with a real tracking hash; consistent afterwards exactly when the DAA score exceeds 64 |
| ClientCommands.DisputeDelivery | krep-cli/src/escrow.rs:457-487 | refused without an arbiter; accepted exactly from SHIPPED for the buyer, leaving a consistent DISPUTED record |
| ClientPayouts.PayOutTo | krep-cli/src/escrow.rs:409-452 | refuses all but one or two ids, commits them in order padded to 64 bytes, and pays the whole value |
| ClientPayouts.PayoutAnchors | krep-cli/src/escrow.rs:420-427 | every id a payout commits is indexed by the scan under the outpoint it spends |
| ClientPayouts.SettleEscrow | krep-cli/src/main.rs:1362-1393 | accepted exactly from SHIPPED for the buyer; commits the given ids in order |
| ClientPayouts.SlashMaker | krep-cli/src/main.rs:1394-1428 | refused until the deadline is strictly past; accepted exactly from CLAIMED for the buyer; commits the given id |
| ClientPayouts.ResolveDispute | krep-cli/src/main.rs:1437-1463 | accepted exactly from DISPUTED with the beneficiary's and the arbiter's keys in that order; commits the given ids in order |
| ClientPayouts.RefundBuyer | krep-cli/src/escrow.rs:490-520 | refused until the deadline is strictly past; accepted exactly from OPEN for the buyer |

## Left out

- Cryptographic primitives, the proof system and its toolchain: parameters or not modelled; the circuit is its constraints.
- `KaspadAnchorVerifier` (paging, budgets, covenant checks against a node), RPC clients, relays, explorer, files and command-line parsing: I/O.
- Kaspa consensus beyond one spend: mempool, mass, finality, script-unit budgets, sigop counts and element-size limits of the script library.
- Hex, JSON and TOML renderings: the model works on the values. Warnings and report-only counters (`unanchored`, the text of errors) are not modelled.
- Fee estimation and `plan_tx`: a fee is a given number; fee sums are not bounded to 64 bits.
- Messaging, board events, market ranking, `score` and `recent_start`: unrelated to the linked core.
- `limbs`: the 32-byte case of the limbs that `FieldHash.LimbsInjective` covers, with no caller in the modelled parts.
- `amount_bucket` and `settlement_body`: direct expressions over the fields `Attestation` already covers.
- The settle command's checks on the attestation files it is given, and the default attestation the slash command writes: inputs to the ids it commits.
- Auto-release in the client: no command builds it; the branch is modelled in the covenant.
- RootsBuild.Build: the node's replies are given in the order asked for, so progress of the node itself is not modelled; a missing reply is a failed call. The count of blocks scanned is returned but not specified.
- Client.Transition: the two wallet queries of the source are one list of spendable outputs, already filtered by maturity.
- EscrowSafety.MakerNeverChanges: speaks of the payment key only; the pseudonym may change at shipment (see Findings).
- ClientProofs.StepUnlocks: covers the covenant input; the fee input's script and lock-time finality are not executed, only the signature and the client's own wait are stated.
