# Zcash Crosslink: a verified model

This project models the parts of the Zcash Crosslink libraries that move bytes, hashes and money, and proves
properties of them for all inputs and all runs. The configuration modelled is the one with crosslink enabled.

- **BFT encoding and header chain** (`Votes`, `FatPointers`, `HardForks`, `PowHeaders`, `BftBlocks`, `HeaderChains`):
  the nested canonical encoding that finalizers sign, its exact fibres (one four-byte slot is read and ignored), the
  two in-memory forms of a proof-of-work header, and what a checked chain of headers commits to.
- **Transaction formats** (`Transparent`, `Sapling`, `Orchard`, `Sprout`, `Staking`, `TxVersions`, `Transactions`,
  `TransactionIo`, `Frozen`): versions 1 to 6 and VCrosslink, read and written, with identifiers.
- **Digest trees and signature hashes** (`TxDigests`, `TxBinding`, `Sighash`, `WireDigests`): identifier and authorizing
  commitment together commit to the whole transaction; what each signature hash covers, as an if-and-only-if; and all
  three as roots of ZIP 244's trees over pieces of the wire encoding.
- **The builder** (`TxBuilder`, `BuilderRuns`, `Builders`): a state machine over its calls, what whole runs take, move and
  build, the balance check, and conservation of the fee against the finished transaction.
- **Amounts, epochs, fees, denominations** (`Values`, `Schedules`, `Zip317`, `Zip318`).

`ByteStrings` and `Io` hold what these share: little-endian integers, counted lists, readers and writers. `Layouts` says
where each field stands on the wire, so that round trips are about these formats and not about some other arrangement.

## How it is built

Every encoding is a function (`Enc...`), every reader a parsing function (`Parse...`) that returns a value and the bytes
after it or an error. Two lemmas per format relate them: a round trip (any trailer is left exactly) and a re-encoding
(what was consumed is the encoding of what was returned). The source's readers and writers are methods on a `Reader` and
a `Writer` with the source's loops; each is proved to compute the parsing function, or to append the encoding. The same
holds for the hash states of the digest trees and for the mutable `Builder`, whose every method is tied to one step
(`Apply`) of the pure state machine.

A hash function is a parameter. A result that rests on collision resistance says: the objects are equal, or these two
inputs, taken from the finite sets of hash calls made for the two objects, collide.

## What turned out not to hold

- A v4 transaction without Sapling parts has a value balance slot that the reader ignores and the writer zeroes. Its
  identifier, taken while reading, therefore differs from the one of the same data frozen again, unless the slot was zero
  (`Frozen.ReadIdentifierIsFrozen`, `Frozen.DeadSlotTwins`, `Transactions.RewrittenBytes`).
- The v6 reader accepts an Orchard bundle under a branch before NU6.3, which the v6 writer then refuses
  (`Transactions.RewrittenBytes`, `Transactions.EarlyOrchardIsRefused`).
- Writers drop silently what their version has no place for; exactly the well-formed transactions survive
  (`Transactions.OnlyWellFormedSurvive`).
- A builder with required padding can lose an unused Ironwood bundle silently, or fail to freeze because of an unused
  Orchard bundle. Before Overwinter no build finishes: it passes its checks and then panics, because the signature hash
  it takes is not defined there (`TxBuilder.SproutBuildPanics`). These are the only ways
  (`TxBuilder.EveryBuildIsWellFormed`, `TxBuilder.PanicsExactly`, `Frozen.BuiltFreezes`).
- A vote for the all-zero value reads back as Nil (`Votes.VoteRoundTrip`).
- The signed checked sum depends on the order of its values, exactly when the gains alone or the losses alone exceed
  the money supply (`Values.OrderMattersExactly`, `Values.SignedSumDependsOnOrder`).
- An authorizing commitment alone does not determine a transaction: the exact pairs of counts that can share a preimage
  are known (`TxBinding.AuthAmbiguousExactly`). Together with the identifier it does (`TxBinding.TxidAndAuthBind`).
- The interval table and the reverse scan part on schedules where a later upgrade overtakes an earlier one, and on
  schedules without Overwinter (`Schedules.DescriptionsAgreeExactly`).

Check everything with `dafny verify dfyconfig.toml`.

## Model

| member | source | states |
|---|---|---|
| `Io.U32RoundTrip` | crates/bft_primitives/src/encoding.rs:25-58 | A little-endian word read after it was written is that word, whatever follows. |
| `Layouts.LittleEndian` | crates/bft_primitives/src/encoding.rs:25-58 | Byte i of a written number counts its 256^i's. |
| `Layouts.CompactSizeForms` | zcash_primitives/src/transaction/mod.rs:1161-1171 | The four forms of a size, byte for byte. |
| `Io.Reader.ReadUint` | crates/bft_primitives/src/encoding.rs:12-36 | A fixed-width read returns the little-endian value of exactly the next bytes and leaves the rest, or reports end of file. |
| `Io.CompactSizeRoundTrip` | zcash_primitives/src/transaction/mod.rs:1161-1171 | Sizes up to the limit survive; the form comes from the zcash_encoding crate. |
| `Io.CompactSizeReencodes` | crates/bft_primitives/src/block.rs:166-178 | Only the shortest form of a size is accepted, so an accepted size determines its bytes. |
| `Io.LongSizeRefused` | crates/bft_primitives/src/block.rs:166-178 | A size above the limit is refused by the reader even when canonically written. |
| `Io.VectorRoundTrip` | zcash_primitives/src/transaction/mod.rs:942-956 | A counted vector of items that round-trip does so itself, with any trailer. |
| `Io.VectorReencodes` | zcash_primitives/src/transaction/mod.rs:942-956 | An accepted vector is the count and the encodings of exactly the items returned. |
| `Votes.VoteRoundTrip` | crates/bft_primitives/src/vote.rs:122-161 | A vote survives its 76 bytes exactly when it is not for the all-zero value, which reads back as Nil. |
| `Votes.VoteReencodes` | crates/bft_primitives/src/vote.rs:138-161 | Every 76 bytes that are accepted are the bytes of the vote returned. |
| `Votes.VoteBytesBind` | crates/bft_primitives/src/vote.rs:122-131 | Votes with the same bytes are the same vote, up to Nil against the all-zero value. |
| `Votes.RoundWordRoundTrip` | crates/bft_primitives/src/vote.rs:173-199 | Kind and round come apart again from the packed word. |
| `Layouts.VoteLayout` | crates/bft_primitives/src/vote.rs:122-131 | Every vote's 76 bytes by position: key, value or zeros, height, and a word whose top bit means precommit and whose other bits are the round. |
| `Votes.VoteToBytes` | crates/bft_primitives/src/vote.rs:122-131 | Filling the buffer in place gives the layout key, value, height, round word. |
| `Votes.VoteFromBytes` | crates/bft_primitives/src/vote.rs:138-161 | The cursor over the buffer returns the vote the layout spells, or the height error. |
| `FatPointers.FatPointerRoundTrip` | crates/bft_primitives/src/fat_pointer.rs:180-217 | A fat pointer with at most 65535 signatures survives, with any trailer. |
| `FatPointers.FatPointerReencodes` | crates/bft_primitives/src/fat_pointer.rs:180-217 | An accepted fat pointer re-encodes to exactly the bytes consumed. |
| `FatPointers.ReadFatPointer` | crates/bft_primitives/src/fat_pointer.rs:180-202 | The counted read loop computes the parsing function. |
| `FatPointers.WriteFatPointer` | crates/bft_primitives/src/fat_pointer.rs:205-217 | Writes the encoding, or the 44-byte prefix and then an error when the count does not fit 16 bits. |
| `FatPointers.InflatedVoteBytes` | crates/bft_primitives/src/fat_pointer.rs:128-148 | The i-th inflated vote is the i-th key followed by the first 44 bytes of the pointer's encoding; Nil exactly for a zero hash. |
| `FatPointers.VerifySignatures` | crates/bft_primitives/src/fat_pointer.rs:152-177 | The batch holds exactly the messages that single verification of each inflated vote checks, with or without a namespace. |
| `FatPointers.MessageBinds` | crates/bft_primitives/src/fat_pointer.rs:152-177 | A signed message fixes the key, the namespace and every field of the vote template. |
| `Layouts.SignedMessage` | crates/bft_primitives/src/fat_pointer.rs:152-177 | What is verified for entry i is its key's signature over the vote's 76 bytes followed by the namespace, if there is one. |
| `Layouts.FatPointerLayout` | crates/bft_primitives/src/fat_pointer.rs:205-217 | Every fat pointer by position: the last 44 bytes of its votes, the count, then key and signature of entry i at 46 + 96 i. |
| `HardForks.RankIsLexicographic` | crates/bft_primitives/src/hard_fork.rs:60-63 | The order used by the sort is byte-wise lexicographic order, and it is total. |
| `HardForks.New` | crates/bft_primitives/src/hard_fork.rs:53-72 | Succeeds exactly on non-empty duplicate-free lists with a strictly ascending permutation; otherwise reports emptiness or the least repeated key. |
| `HardForks.Deserialize` | crates/bft_primitives/src/hard_fork.rs:173-230 | The growing seen-list scan refuses exactly the lists with a repeated key, at the first repetition. |
| `HardForks.CheckBoth` | crates/bft_primitives/src/hard_fork.rs:53-72 | Sort-then-adjacent-pairs and the quadratic scan agree on every list; the rules agree exactly when the list was already in order. |
| `HardForks.CanonicalOrderIsUnique` | crates/bft_primitives/src/hard_fork.rs:53-72 | Equal sets of finalizers have one canonical list. |
| `HardForks.HardForkRoundTrip` | crates/bft_primitives/src/hard_fork.rs:95-130 | Rules with at most 4096 finalizers survive, with any trailer. |
| `HardForks.HardForkReencodes` | crates/bft_primitives/src/hard_fork.rs:95-115 | An accepted rule re-encodes to exactly the bytes consumed. |
| `HardForks.ReadHardFork` | crates/bft_primitives/src/hard_fork.rs:95-115 | The counted read loop computes the parsing function. |
| `HardForks.WriteHardFork` | crates/bft_primitives/src/hard_fork.rs:117-130 | Writes the encoding, or fails when the count does not fit 32 bits. |
| `Layouts.HardForkLayout` | crates/bft_primitives/src/hard_fork.rs:117-130 | Every rule by position: both heights, the count, and key i at 20 + 32 i. |
| `PowHeaders.BlockHeaderRoundTrip` | zcash_primitives/src/block.rs:119-171 | A header with a readable solution and at most 65535 signatures survives. |
| `PowHeaders.BlockHeaderReencodes` | zcash_primitives/src/block.rs:119-171 | An accepted header re-encodes to exactly the bytes consumed. |
| `PowHeaders.ReadersAgree` | crates/bft_primitives/src/block.rs:145-196 | The byte-keeping reader accepts an input exactly when the field reader does, the version word is at least 4 and the solution has 36 or 1344 bytes; both consume the same bytes, which are the ones kept. |
| `PowHeaders.EncodedRoundTrip` | crates/bft_primitives/src/block.rs:145-206 | A header that was read reads back from its own bytes, with any trailer. |
| `PowHeaders.AccessorsAgree` | crates/bft_primitives/src/block.rs:209-234 | Version word, previous hash, solution slice and hash of the byte form are those of the field form; the hash is SHA-256 of SHA-256 of the encoding. |
| `PowHeaders.ReadEncoded` | crates/bft_primitives/src/block.rs:145-196 | Rebuilding the bytes piece by piece computes the parsing function. |
| `PowHeaders.ReadBlockHeader` | zcash_primitives/src/block.rs:119-154 | The field reader computes the parsing function. |
| `PowHeaders.WriteBlockHeader` | zcash_primitives/src/block.rs:156-171 | The field writer writes the encoding, or fails on too many signatures. |
| `PowHeaders.HashBlockHeader` | zcash_primitives/src/block.rs:187-198 | The frozen hash is the double hash of the encoding; there is none exactly where the source panics. |
| `PowHeaders.OnlyFramedReadsBack` | zcash_primitives/src/block.rs:228-235 | What a field header writes is read by the byte-keeping reader exactly for framed headers. |
| `PowHeaders.EncodeHeader` | zcash_primitives/src/block.rs:228-242 | The conversion succeeds (does not panic) exactly on framed headers and is then the encoding. |
| `PowHeaders.DecodeHeader` | zcash_primitives/src/block.rs:244-255 | The conversion back cannot panic on a header that was read, and is its inverse. |
| `BftBlocks.BlockRoundTrip` | crates/bft_primitives/src/block.rs:442-549 | Every representable block survives, with any trailer left exactly. |
| `BftBlocks.OnlyRepresentableReadsBack` | crates/bft_primitives/src/block.rs:442-549 | A block reads back from its own encoding if and only if it is representable: at most 2048 framed headers, 65535 signatures, 255 rules of at most 4096 keys, and a version 1 height below the greatest. |
| `BftBlocks.BlockReencodes` | crates/bft_primitives/src/block.rs:442-511 | Every accepted input is the layout of a representable block with some four bytes in the ignored slot. |
| `BftBlocks.SlotIsZeroed` | crates/bft_primitives/src/block.rs:514-549 | Re-encoding gives the consumed bytes with exactly the ignored slot set to zero, at a place that depends on the fat pointer. |
| `BftBlocks.BlockFibre` | crates/bft_primitives/src/block.rs:463-466 | Inputs parse to one block exactly when their consumed bytes agree outside the slot. |
| `BftBlocks.SlotIsIgnored` | crates/bft_primitives/src/block.rs:463-466 | Whatever stands in the slot, the same block is read. |
| `BftBlocks.ReadBlock` | crates/bft_primitives/src/block.rs:442-511 | The block reader, with its height normalisation and bounded counts, computes the parsing function. |
| `BftBlocks.ReadHeaders` | crates/bft_primitives/src/block.rs:468-478 | The bounded, counted header loop computes its parsing function. |
| `BftBlocks.ReadHardForks` | crates/bft_primitives/src/block.rs:480-485 | The counted rule loop computes its parsing function. |
| `BftBlocks.WriteBlock` | crates/bft_primitives/src/block.rs:514-549 | Writes the encoding, and fails exactly on the overflow conditions of the source. |
| `Layouts.BlockLayout` | crates/bft_primitives/src/block.rs:514-535 | Every representable block by position up to its headers; version 1 ends there. |
| `Layouts.RulesLayout` | crates/bft_primitives/src/block.rs:537-546 | From version 2 on there follow a one-byte count, the rules and a height. |
| `BftBlocks.ToBytes` | crates/bft_primitives/src/block.rs:552-556 | Returns the encoding exactly for writable blocks. |
| `BftBlocks.HashCommits` | crates/bft_primitives/src/block.rs:429-439 | Representable blocks with one hash are equal, or their encodings collide. |
| `BftBlocks.NotarizedRoundTrip` | crates/bft_primitives/src/block.rs:628-640 | A notarized block survives if and only if block and fat pointer are representable. |
| `BftBlocks.SignatureCommitsToBlock` | crates/bft_primitives/src/block.rs:596-616 | Equal signed messages of two notarized blocks force equal templates and equal blocks, or a collision. |
| `HeaderChains.CheckHeaders` | crates/bft_primitives/src/block.rs:561-592 | Passes exactly when depth, versions, links and work all hold; otherwise reports the first failing class at its least index. |
| `HeaderChains.PowInputIsFields` | crates/bft_primitives/src/block.rs:237-245 | For every header Equihash is asked about the six written fields before the nonce (108 bytes), the nonce and the solution. |
| `HeaderChains.ChainBinds` | crates/bft_primitives/src/block.rs:572-583 | Linked lists with one last header agree downwards, or collide where they first part. |
| `HeaderChains.CheckedHeadersBind` | crates/bft_primitives/src/block.rs:561-592 | Two lists that pass with one last header are identical byte for byte, or an explicit double-SHA256 collision is exhibited. |
| `HeaderChains.ReadHeadersAreShaped` | crates/bft_primitives/src/block.rs:145-196 | Headers that were read never make the accessors or the version check fail. |
| `Values.Add` | components/zcash_protocol/src/value.rs:170-176 | Addition of balances succeeds exactly in range; the machine addition inside cannot overflow. |
| `Values.AddZatoshis` | components/zcash_protocol/src/value.rs:432-438 | Addition of amounts succeeds exactly in range; the machine addition inside cannot overflow. |
| `Values.SumBalances` | components/zcash_protocol/src/value.rs:133-139 | Succeeds exactly when every prefix total is within the balance range, with the true total. |
| `Values.SumZatoshis` | components/zcash_protocol/src/value.rs:480-490 | Succeeds exactly when the true total is at most the money supply. |
| `Values.TotalOfPermutation` | components/zcash_protocol/src/value.rs:480-490 | The total does not depend on the order. |
| `Values.OrderMattersExactly` | components/zcash_protocol/src/value.rs:133-139 | The signed sum does: every order of the values can be added up if and only if the gains alone and the losses alone stay within the money supply. |
| `Values.SignedSumDependsOnOrder` | components/zcash_protocol/src/value.rs:133-139 | An input that fails this: one order of three values succeeds and another fails. |
| `Values.BalanceRoundTrip` | components/zcash_protocol/src/value.rs:95-119 | Balances survive their two's complement form. |
| `Schedules.DescriptionsAgreeExactly` | components/zcash_protocol/src/consensus.rs:800-902 | The reverse scan and the interval table describe one partition of heights if and only if no set height is overtaken and Sprout is bounded. |
| `Schedules.OrderedSchedulesAgree` | components/zcash_protocol/src/consensus.rs:800-902 | On schedules with Overwinter set, non-decreasing heights and unset heights only at the end, a height lies in a branch's bounds exactly when the scan returns that branch. |
| `Schedules.PublicNetworksAgree` | components/zcash_protocol/src/consensus.rs:486-545 | Main and test networks are such schedules. |
| `Schedules.PublicNetworkRules` | components/zcash_protocol/src/consensus.rs:486-545 | At every height of the main and the test network the scan answers the branch of the published intervals. |
| `Schedules.RulesNeverMoveBack` | components/zcash_protocol/src/consensus.rs:800-809 | On any schedule at all the scan never moves to an earlier branch as height grows. |
| `Schedules.UnboundedSprout` | components/zcash_protocol/src/consensus.rs:853-860 | Without Overwinter the scan answers Sprout where the table has no bounds. |
| `Schedules.BranchFromU32` | components/zcash_protocol/src/consensus.rs:752-775 | Recognises exactly the eleven branch identifiers. |
| `Zip318.LargestOneTwoFive` | components/zcash_protocol/src/zip318.rs:129-151 | Zero below the floor, otherwise the greatest 1-2-5 multiple not above the bound, for every 64-bit bound and positive floor, without overflow. |
| `Zip318.IsCanonicalWithin` | components/zcash_protocol/src/zip318.rs:154-170 | Stripping factors of ten terminates above a positive bound and decides membership in the 1-2-5 series. |
| `Zip318.FixedExactlyWhenCanonical` | components/zcash_protocol/src/zip318.rs:129-179 | In range, the largest-multiple loop fixes a value exactly when the stripping test accepts it. |
| `Zip318.SeriesCoincide` | components/zcash_protocol/src/zip318.rs:129-179 | Above the floor the series over the floor and over one zatoshi are the same. |
| `Zip317.FeeRequired` | zcash_primitives/src/transaction/fees/zip317.rs:172-213 | The accumulating loop returns the closed form, the overflow error, or exactly the unknown outpoints in order. |
| `Zip317.CeilDivIsLeast` | zcash_primitives/src/transaction/fees/zip317.rs:201-207 | The division is the least number of units that cover the size. |
| `Zip317.LogicalActionsAreLeast` | zcash_primitives/src/transaction/fees/zip317.rs:203-209 | The logical actions are the least number of actions that carry everything, one standard input and output to a transparent action, one spend and output to a Sapling action. |
| `Zip317.FeeIsForLeastActions` | zcash_primitives/src/transaction/fees/zip317.rs:211-212 | The fee is the marginal fee times the least such number not below the grace actions. |
| `Zip317.FeeMonotone` | zcash_primitives/src/transaction/fees/zip317.rs:201-213 | The fee grows with every size and count. |
| `Zip317.FeeSubadditive` | zcash_primitives/src/transaction/fees/zip317.rs:201-213 | Joining the inputs, outputs and shielded parts of two transactions never costs more than the two fees. |
| `Zip317.StandardMinimum` | zcash_primitives/src/transaction/fees/zip317.rs:50-55 | Under the standard rule the fee is at least the minimum fee, and equals it exactly with at most two logical actions. |
| `Zip317.OrderDoesNotMatter` | zcash_primitives/src/transaction/fees/zip317.rs:183-199 | Neither fee nor reported outpoints depend on the order of inputs and outputs. |
| `Transparent.TransparentRoundTrip` | zcash_primitives/src/transaction/mod.rs:942-956 | Bundles that are not empty survive; empty lists read as no bundle. |
| `Transparent.TransparentReencodes` | zcash_primitives/src/transaction/mod.rs:942-956 | Accepted inputs and outputs re-encode to the bytes consumed. |
| `Transparent.ReadTransparent` | zcash_primitives/src/transaction/mod.rs:942-956 | The two counted loops compute the parsing function. |
| `Transparent.WriteTransparent` | zcash_primitives/src/transaction/mod.rs:1161-1171 | The two loops write the encoding. |
| `Sapling.SaplingV5RoundTrip` | zcash_primitives/src/transaction/components/sapling.rs:450-553 | The transposed layout round-trips every non-empty bundle with one shared anchor, spends-only and outputs-only included, with each proof and signature back in its own description. |
| `Sapling.SaplingV5Reencodes` | zcash_primitives/src/transaction/components/sapling.rs:450-504 | Whatever is accepted shares an anchor and is written back byte for byte. |
| `Sapling.JoinUndoesSplit` | zcash_primitives/src/transaction/components/sapling.rs:477-494 | Joining the separated lists restores the bundle. |
| `Sapling.SplitUndoesJoin` | zcash_primitives/src/transaction/components/sapling.rs:477-494 | Separating a joined bundle restores every list, the anchor included. |
| `Sapling.WitnessesRoundTrip` | zcash_primitives/src/transaction/components/sapling.rs:468-477 | Given the counts, concatenated proofs and signatures come apart as they were. |
| `Sapling.ComponentsV4RoundTrip` | zcash_primitives/src/transaction/components/sapling.rs:384-443 | Value balance, spends and outputs of the v4 layout survive. |
| `Sapling.ComponentsV4Reencode` | zcash_primitives/src/transaction/components/sapling.rs:384-405 | Accepted v4 components re-encode to the bytes consumed. |
| `Layouts.SaplingLayouts` | zcash_primitives/src/transaction/components/sapling.rs:384-443 | Every field of a v4 spend (384 bytes) and output (948 bytes) by position; the output begins with its v5 form. |
| `Layouts.SaplingSections` | zcash_primitives/src/transaction/components/sapling.rs:507-553 | The order of everything in a v5 Sapling bundle. |
| `Sapling.ReadSaplingV5` | zcash_primitives/src/transaction/components/sapling.rs:450-504 | Reading compact data, then arrays of proofs and signatures, computes the parsing function. |
| `Sapling.WriteSaplingV5` | zcash_primitives/src/transaction/components/sapling.rs:507-553 | The loops over spends and outputs write the transposed layout. |
| `Sapling.ReadComponentsV4` | zcash_primitives/src/transaction/components/sapling.rs:384-405 | The v4 loops compute the parsing function. |
| `Sapling.WriteComponentsV4` | zcash_primitives/src/transaction/components/sapling.rs:417-443 | The v4 loops write the encoding. |
| `Orchard.BundleVersionForBranch` | zcash_primitives/src/transaction/components/orchard.rs:168-185 | An Ironwood version is answered for the Ironwood pool only. |
| `TxBuilder.BundleVersionsFollowBranch` | zcash_primitives/src/transaction/components/orchard.rs:168-185 | There is an Orchard version from NU5 on, one that fits v6 exactly where v6 is valid, and an Ironwood version exactly there. |
| `Orchard.OrchardRoundTrip` | zcash_primitives/src/transaction/components/orchard.rs:104-153 | Every bundle of the slot's version survives, each signature with its own action. |
| `Orchard.OrchardReencodes` | zcash_primitives/src/transaction/components/orchard.rs:104-153 | Only such bundles are read, and they re-encode to the bytes consumed. |
| `Layouts.ActionLayout` | zcash_primitives/src/transaction/components/orchard.rs:329-363 | Every field of an action's 820 bytes by position. |
| `Layouts.OrchardSections` | zcash_primitives/src/transaction/components/orchard.rs:329-363 | The order of everything in an Orchard bundle. |
| `Orchard.ReadOrchard` | zcash_primitives/src/transaction/components/orchard.rs:104-153 | Actions first, signatures later: the reader computes the parsing function, errors included. |
| `Orchard.WriteOrchard` | zcash_primitives/src/transaction/components/orchard.rs:329-363 | The writer appends the encoding. |
| `Orchard.WriteOrchardV6` | zcash_primitives/src/transaction/components/orchard.rs:208-221 | The v6 writer refuses exactly the bundle versions that have no v6 slot. |
| `Staking.StakingRoundTrip` | zcash_primitives/src/transaction/components/staking.rs:686-770 | Every action, and its absence, survives its tag and fields. |
| `Staking.StakingReencodes` | zcash_primitives/src/transaction/components/staking.rs:730-770 | An accepted action re-encodes to the bytes consumed; unknown tags are refused. |
| `Staking.StakingInjective` | zcash_primitives/src/transaction/components/staking.rs:720-725 | No two actions share their bytes. |
| `Layouts.StakingLayout` | zcash_primitives/src/transaction/components/staking.rs:686-725 | Kind byte, key, challenge and signature of every action by position. |
| `Layouts.StakingTail` | zcash_primitives/src/transaction/components/staking.rs:686-725 | What follows them for each kind, by position. |
| `Staking.ReadStaking` | zcash_primitives/src/transaction/components/staking.rs:730-770 | The tag dispatch and field reads compute the parsing function. |
| `Staking.WriteStaking` | zcash_primitives/src/transaction/components/staking.rs:686-725 | The writer appends the encoding. |
| `Sprout.NetValue` | zcash_primitives/src/transaction/components/sprout.rs:194-196 | The difference of the two public values is always a balance. |
| `Sprout.SproutRoundTrip` | zcash_primitives/src/transaction/mod.rs:882-902 | JoinSplits of the version's proof system survive, with key and signature. |
| `Sprout.SproutReencodes` | zcash_primitives/src/transaction/mod.rs:882-902 | Accepted JoinSplits re-encode to the bytes consumed. |
| `Sprout.JsRoundTrip` | zcash_primitives/src/transaction/components/sprout.rs:89-190 | A JoinSplit survives under its own proof system. |
| `Layouts.JoinSplitLayout` | zcash_primitives/src/transaction/components/sprout.rs:168-190 | Every field of a JoinSplit by position; only the proof's size varies. |
| `Sprout.ReadJs` | zcash_primitives/src/transaction/components/sprout.rs:89-166 | Filling the fixed arrays in order computes the parsing function. |
| `Sprout.ReadSprout` | zcash_primitives/src/transaction/mod.rs:882-902 | The bundle reader computes the parsing function. |
| `Sprout.WriteSprout` | zcash_primitives/src/transaction/mod.rs:1143-1151 | The bundle writer appends the encoding. |
| `TxVersions.VersionRoundTrip` | zcash_primitives/src/transaction/mod.rs:91-156 | Every version number in range survives its header words. |
| `TxVersions.VersionReencodes` | zcash_primitives/src/transaction/mod.rs:91-117 | Accepted header words are those of the version returned. |
| `Layouts.VersionBytes` | zcash_primitives/src/transaction/mod.rs:119-156 | The first bytes of every format, as literals. |
| `TxVersions.HeaderWordsDistinct` | zcash_primitives/src/transaction/mod.rs:119-136 | The first header word alone tells versions apart. |
| `TxVersions.SuggestedForBranch` | zcash_primitives/src/transaction/mod.rs:224-239 | The suggested version is valid in the branch and has Sapling, Orchard and Ironwood exactly where the branch has them. |
| `TxVersions.ValidWhereCarried` | zcash_primitives/src/transaction/mod.rs:243-280 | A version with Sapling is valid exactly where every pool it carries is active; V3 and the earlier ones only in their own branch. |
| `TxVersions.ReadVersion` | zcash_primitives/src/transaction/mod.rs:91-117 | The reader computes the parsing function. |
| `Transactions.TxRoundTrip` | zcash_primitives/src/transaction/mod.rs:847-1248 | Every well-formed transaction of any version is written, and read back with the same data and exactly the trailer left. |
| `Transactions.OnlyWellFormedSurvive` | zcash_primitives/src/transaction/mod.rs:1110-1248 | What a writer accepts reads back as the same data if and only if it is well formed: anything else is dropped silently or refused by the reader. |
| `Transactions.WellFormedIsWritten` | zcash_primitives/src/transaction/mod.rs:1110-1226 | No writer refuses a well-formed transaction. |
| `Transactions.RefusedExactly` | zcash_primitives/src/transaction/mod.rs:1110-1226 | Exactly which data each writer refuses, and with which error. |
| `Transactions.TxReencodes` | zcash_primitives/src/transaction/mod.rs:847-1061 | Accepted bytes are determined by the data and, in v4 without Sapling parts, the dead value balance slot. |
| `Transactions.RewrittenBytes` | zcash_primitives/src/transaction/mod.rs:863-940 | Reading and writing again gives the bytes read exactly when that slot was zero, and fails exactly for a v6 Orchard bundle under a branch before NU6.3. |
| `Transactions.V6ReadButRefused` | zcash_primitives/src/transaction/components/orchard.rs:204-221 | For all readable v6 data with an Orchard bundle version that has no v6 slot: the v6 reader accepts its bytes and the v6 writer refuses the data it returned. |
| `Transactions.EarlyOrchardIsRefused` | zcash_primitives/src/transaction/mod.rs:1028-1061 | That happens for every Orchard bundle of every branch from NU5 up to NU6.3, alone in a v6 transaction. |
| `Transactions.OneEarlyOrchardIsRefused` | zcash_primitives/src/transaction/mod.rs:1188-1203 | One such input under NU5: a single action of zero bytes. |
| `Transactions.SlotIsWritten` | zcash_primitives/src/transaction/components/sapling.rs:417-443 | The dead slot is on the wire: different values, different bytes. |
| `Transactions.LegacyRoundTrip` | zcash_primitives/src/transaction/mod.rs:863-940 | Up to v4 the data is read back whatever stands in the dead slot. |
| `Transactions.LegacyReencodes` | zcash_primitives/src/transaction/mod.rs:863-940 | Up to v4 accepted bytes are those of the data and the slot. |
| `Transactions.ModernRoundTrip` | zcash_primitives/src/transaction/mod.rs:965-1061 | From v5 on the body round-trips. |
| `Transactions.ModernReencodes` | zcash_primitives/src/transaction/mod.rs:965-1061 | From v5 on accepted bodies re-encode byte for byte. |
| `Layouts.ModernSections` | zcash_primitives/src/transaction/mod.rs:1173-1226 | The order of everything written from v5 on. |
| `Layouts.V4Sections` | zcash_primitives/src/transaction/mod.rs:1120-1159 | The order of everything written in v4. |
| `TransactionIo.ReadLegacy` | zcash_primitives/src/transaction/mod.rs:863-940 | The reader up to v4 computes its parsing function. |
| `TransactionIo.ReadV5` | zcash_primitives/src/transaction/mod.rs:965-994 | The v5 reader computes its parsing function. |
| `TransactionIo.ReadV6` | zcash_primitives/src/transaction/mod.rs:1028-1061 | The v6 reader computes its parsing function. |
| `TransactionIo.ReadVCrosslink` | zcash_primitives/src/transaction/mod.rs:997-1026 | The VCrosslink reader computes its parsing function. |
| `TransactionIo.ReadTx` | zcash_primitives/src/transaction/mod.rs:847-860 | Dispatch on the version computes the parsing function of all formats. |
| `TransactionIo.WriteV4` | zcash_primitives/src/transaction/mod.rs:1120-1159 | Writes the bytes specified for the formats up to v4 or fails as specified. |
| `TransactionIo.WriteV5` | zcash_primitives/src/transaction/mod.rs:1173-1186 | The same for v5. |
| `TransactionIo.WriteV6` | zcash_primitives/src/transaction/mod.rs:1188-1203 | The same for v6, which checks both bundle versions. |
| `TransactionIo.WriteVCrosslink` | zcash_primitives/src/transaction/mod.rs:1206-1226 | The same for VCrosslink. |
| `TransactionIo.WriteTx` | zcash_primitives/src/transaction/mod.rs:1110-1118 | Dispatch on the version writes the specified bytes or fails as specified. |
| `TxDigests.HashSaplingSpends` | zcash_primitives/src/transaction/txid.rs:166-197 | Feeding two hash states in one loop gives the digest of nullifiers and of the other effecting fields. |
| `TxDigests.HashSaplingOutputs` | zcash_primitives/src/transaction/txid.rs:207-230 | Feeding three hash states in one loop gives the digest of the cut ciphertexts and other fields. |
| `TxDigests.HashSapling` | zcash_primitives/src/transaction/txid.rs:287-303 | The Sapling digest combines both lists and the value balance. |
| `TxDigests.HashPrevouts` | zcash_primitives/src/transaction/txid.rs:121-129 | The loop hashes all previous outpoints. |
| `TxDigests.HashOutputs` | zcash_primitives/src/transaction/txid.rs:147-153 | The loop hashes all transparent outputs. |
| `TxDigests.HashHeader` | zcash_primitives/src/transaction/txid.rs:245-268 | The header digest covers version, group, branch, lock time and expiry. |
| `TxDigests.DigestTx` | zcash_primitives/src/transaction/txid.rs:319-413 | The identifier's digester produces the parts of the tree. |
| `TxDigests.ToHash` | zcash_primitives/src/transaction/txid.rs:417-506 | Both root hashes: empty parts are substituted, and what is appended last depends on the version. |
| `TxDigests.ToTxid` | zcash_primitives/src/transaction/txid.rs:512-542 | The identifier is the root of the tree. |
| `TxDigests.HashSaplingAuth` | zcash_primitives/src/transaction/txid.rs:586-615 | Proofs, signatures, output proofs, binding signature and, in v6, the anchor are fed in order. |
| `TxDigests.ToAuthCommitment` | zcash_primitives/src/transaction/txid.rs:548-693 | The authorizing commitment is the root of the witness tree. |
| `WireDigests.HeaderIsWirePrefix` | zcash_primitives/src/transaction/txid.rs:245-268 | What the header digest hashes is the first 20 bytes of the written transaction, for every transaction from v5 on that is written. |
| `WireDigests.TxidIsTreeRoot` | zcash_primitives/src/transaction/txid.rs:319-542 | Every identifier from v5 on is the root of the ZIP 244 tree (sections T.1 to T.4, with personalizations as text) over pieces cut by position out of the wire encodings. |
| `WireDigests.AuthIsTreeRoot` | zcash_primitives/src/transaction/txid.rs:548-693 | Every authorizing commitment is the root of such a tree; its Sapling part is the end of the wire form. |
| `WireDigests.SighashIsTreeRoot` | zcash_primitives/src/transaction/sighash_v5.rs:34-192 | Every signature hash from v5 on is the root of the identifier's tree with the transparent part replaced by the tree of ZIP 244 section S.2, when there is something transparent to sign. |
| `TxBinding.TxidAndAuthBind` | zcash_primitives/src/transaction/txid.rs:166-693 | Two transactions from v5 on with equal identifier and equal authorizing commitment are equal field for field, or an explicit hash collision between their calls, or an Orchard commitment collision between their bundles, is produced. |
| `TxBinding.TxidBinds` | zcash_primitives/src/transaction/txid.rs:166-540 | Short of a collision, an equal identifier fixes every effecting field: header, inputs, outputs, Sapling data with re-joined ciphertexts, staking action, Orchard and Ironwood commitments. |
| `TxBinding.AuthBinds` | zcash_primitives/src/transaction/txid.rs:548-693 | Short of a collision and given equal effects, an equal authorizing commitment fixes scripts, proofs and signatures. |
| `TxBinding.AuthAmbiguousExactly` | zcash_primitives/src/transaction/txid.rs:586-615 | Without the identifier, Sapling bundles with two given pairs of counts can have one authorizing preimage if and only if four times the spends plus three times the outputs are the same and, in v6, both or neither have a spend. |
| `TxBinding.WitnessesBind` | zcash_primitives/src/transaction/txid.rs:586-615 | Once the counts are fixed the preimage comes apart in one way. |
| `TxBinding.SpendsBind` | zcash_primitives/src/transaction/txid.rs:166-197 | The spends digest fixes number and effecting fields of the spends, or collides. |
| `TxBinding.SaplingOutputsBind` | zcash_primitives/src/transaction/txid.rs:207-230 | The outputs digest fixes number and effecting fields of the outputs, or collides. |
| `TxBinding.TransparentBinds` | zcash_primitives/src/transaction/txid.rs:234-283 | The transparent digest fixes presence, outpoints, sequences and outputs, or collides. |
| `TxBinding.HeaderBinds` | zcash_primitives/src/transaction/txid.rs:245-268 | The header preimage fixes version, branch, lock time and expiry. |
| `TxBinding.RootBinds` | zcash_primitives/src/transaction/txid.rs:417-506 | Equal root preimages have equal parts; the version says what the last one is. |
| `TxBinding.AnchorIsNoEffectInV6` | zcash_primitives/src/transaction/txid.rs:62-91 | Moving all Sapling spends of a v6 transaction to another anchor changes neither the identifier nor any part handed to the signature hashes. |
| `TxBinding.AnchorIsAnEffectBeforeV6` | zcash_primitives/src/transaction/txid.rs:166-197 | In v5 and VCrosslink equal identifiers force equal anchors, or a collision. |
| `TxBinding.AnchorIsAuthorizedInV6` | zcash_primitives/src/transaction/txid.rs:586-615 | In v6 an unchanged authorizing commitment after moving the anchor is a collision. |
| `Sighash.SighashCoversExactly` | zcash_primitives/src/transaction/sighash_v5.rs:34-192 | Short of a collision two signature hashes from v5 on are equal if and only if they agree on the header, the shielded effects, the staking action, the hash type, the signed input, below 0x80 all inputs and coins, under 3 the output at the input's place, and unless under 2 or 3 all outputs. |
| `Sighash.OthersSignEveryOutput` | zcash_primitives/src/transaction/sighash_v5.rs:88-103 | For shielded parts and hash types whose low five bits are neither 2 nor 3, equal hashes force all outputs equal, short of a collision. |
| `Sighash.NoneSignsNoOutput` | zcash_primitives/src/transaction/sighash_v5.rs:95-97 | With low five bits 2 any list of outputs gives the same hash. |
| `Sighash.SingleSignsItsOutput` | zcash_primitives/src/transaction/sighash_v5.rs:88-94 | With low five bits 3 only the output at the input's own place matters, or that there is none. |
| `Sighash.SingleBindsItsOutput` | zcash_primitives/src/transaction/sighash_v5.rs:88-94 | And equal hashes force that output, or its absence, equal, short of a collision. |
| `Sighash.LowTypesSignEveryInput` | zcash_primitives/src/transaction/sighash_v5.rs:47-86 | For shielded parts and hash types below 0x80, equal hashes force all outpoints, sequences, amounts and scripts equal, short of a collision. |
| `Sighash.HighTypesSignOneInput` | zcash_primitives/src/transaction/sighash_v5.rs:47-86 | From 0x80 on any other inputs and coins give the same hash, and unless under 3 so does any other place of the signed input. |
| `Sighash.TransparentSigBinds` | zcash_primitives/src/transaction/sighash_v5.rs:34-129 | An equal transparent signature digest fixes hash type, selected inputs, coins and outputs and the signed input, or collides. |
| `Sighash.SignedAlikeHashesAlike` | zcash_primitives/src/transaction/sighash_v5.rs:34-129 | What the hash type leaves out does not change the digest. |
| `Sighash.ShieldedSighashIsTxid` | zcash_primitives/src/transaction/sighash_v5.rs:40-51 | With no transparent input, or only a coinbase's, what is signed is the identifier. |
| `Sighash.AnchorIsNotSignedInV6` | zcash_primitives/src/transaction/sighash_v6.rs:10-38 | No v6 signature hash depends on the Sapling anchor. |
| `Sighash.TransparentSigDigest` | zcash_primitives/src/transaction/sighash_v5.rs:34-129 | The hash states, reusing the identifier's digests, compute the specified digest. |
| `Sighash.SignatureHash` | zcash_primitives/src/transaction/sighash.rs:40-61 | Dispatch on the version computes the specified hash. |
| `Frozen.FrozenRoundTrip` | zcash_primitives/src/transaction/mod.rs:773-937 | Writing and reading a well-formed transaction of any version gives the same data, the same identifier and no bytes left over; up to v4 the hash taken while reading is the one taken while writing. |
| `Frozen.ReadIdentifierIsFrozen` | zcash_primitives/src/transaction/mod.rs:797-937 | Freezing what was read gives the identifier that was read; with a non-zero dead slot the two hash different strings and agree only if those collide. |
| `Frozen.DeadSlotTwins` | zcash_primitives/src/transaction/mod.rs:863-940 | Any value in the dead slot of a v4 transaction without Sapling parts reads as the same data. |
| `Frozen.BuiltFreezes` | zcash_primitives/src/transaction/builder.rs:1819-1819 | Freezing what a builder assembled fails (the source unwraps) exactly when a required Orchard bundle has no place; a build finishes exactly when freezing succeeds and the branch is not Sprout. |
| `Frozen.BuiltSurvives` | zcash_primitives/src/transaction/builder.rs:1015-1819 | From the first call on a new builder outside the Sprout branch to the bytes read by someone else: the build finishes and nothing is lost, given that no required padding bundle lacks a place. |
| `Frozen.FreezeTransaction` | zcash_primitives/src/transaction/mod.rs:787-837 | Hashing the written bytes or the digest tree computes the specified identifier. |
| `Frozen.ReadTransaction` | zcash_primitives/src/transaction/mod.rs:847-940 | Reading and identifying computes the specified transaction. |
| `TxBuilder.RunKeepsInv` | zcash_primitives/src/transaction/builder.rs:931-1364 | Over every run of calls the version has crosslink exactly when the configuration is VCrosslink, a staking action needs it, and pool builders keep the branch's bundle versions and the configured padding. |
| `TxBuilder.ApplyKeepsInv` | zcash_primitives/src/transaction/builder.rs:931-1364 | Every single call keeps that, and never changes configuration, branch or target. |
| `BuilderRuns.CallsTaken` | zcash_primitives/src/transaction/builder.rs:931-1364 | Over every run, exactly which calls a builder takes: by configuration and branch for the pools, and a version exactly when it is valid, has crosslink as configured and has a place for everything in use. |
| `BuilderRuns.VersionsTaken` | zcash_primitives/src/transaction/builder.rs:931-991 | The same for versions from any state that keeps the invariant, with the exact condition of each pool's error; a staking action is never the reason. |
| `BuilderRuns.NetOverRuns` | zcash_primitives/src/transaction/builder.rs:1157-1364 | Over every run the unchecked balance grows by the total of the signed values of the calls taken: spends and inputs in, outputs and change out. |
| `BuilderRuns.TakenCallMovesItsValue` | zcash_primitives/src/transaction/builder.rs:1367-1403 | Where both balances are amounts, a call that is taken moves the balance by its own signed value. |
| `BuilderRuns.BalanceOverRuns` | zcash_primitives/src/transaction/builder.rs:1367-1403 | Over every run from a new builder the balance, where it is an amount, is the total moved by the calls taken and the last staking action. |
| `BuilderRuns.CheckedAgainstFee` | zcash_primitives/src/transaction/builder.rs:1596-1619 | The check passes exactly when balance and fee are equal, and else reports the difference, or an underflow beyond the money supply. |
| `BuilderRuns.ChecksPassExactly` | zcash_primitives/src/transaction/builder.rs:1595-1619 | A build passes its checks exactly when its version is valid with a place for everything in use and, for a coinbase, the expiry is the target, else the balance is the fee. |
| `BuilderRuns.BuiltOverRuns` | zcash_primitives/src/transaction/builder.rs:1680-1703 | Over every run a finished transaction has the outpoints and outputs taken in their order, the last version and staking action taken and the last expiry asked for (by default 40 blocks on). |
| `TxBuilder.EveryBuildIsWellFormed` | zcash_primitives/src/transaction/builder.rs:1557-1819 | Over every run, a build that passes its checks panics if and only if the branch is Sprout or a required Orchard bundle is without a place; otherwise it finishes, with a well-formed transaction if and only if no required Ironwood bundle is without a place. |
| `TxBuilder.PanicsExactly` | zcash_primitives/src/transaction/sighash_v4.rs:254-255 | From any state that keeps the invariant: the signature hash panics exactly under the Sprout branch, and freezing exactly for a required Orchard bundle without a place under any other. |
| `TxBuilder.SproutBuildPanics` | zcash_primitives/src/transaction/builder.rs:1720-1721 | A plain builder with one coin worth the fee passes every check under the Sprout branch and then panics. |
| `TxBuilder.BuiltIsWellFormed` | zcash_primitives/src/transaction/builder.rs:931-991 | From any state that keeps the invariant, a finished build is well formed exactly when no required Ironwood bundle is without a place. |
| `TxBuilder.WriterRefusesExactly` | zcash_primitives/src/transaction/builder.rs:1819-1819 | The writer refuses the assembled data exactly when a required Orchard bundle meets a version without Orchard. |
| `TxBuilder.IronwoodPaddingCanBeLost` | zcash_primitives/src/transaction/builder.rs:432-459 | Under NU6.3 a required, unused Ironwood bundle with a proposed v5 passes all checks and is dropped. |
| `TxBuilder.OrchardPaddingCanBeLost` | zcash_primitives/src/transaction/builder.rs:379-412 | Under NU5 a required, unused Orchard bundle with a proposed v4 passes all checks and is refused by the writer. |
| `TxBuilder.ExpiryOverRuns` | zcash_primitives/src/transaction/builder.rs:1135-1138 | Over every run the expiry height is the last one asked for, or the default. |
| `TxBuilder.CoinbaseOverRuns` | zcash_primitives/src/transaction/builder.rs:1015-1151 | Over every run a coinbase builder passes its expiry check exactly when the last expiry asked for is the target; it never has a staking action or required padding, nor Orchard in NU6.3. |
| `TxBuilder.FeeConservation` | zcash_primitives/src/transaction/builder.rs:1596-1619 | A non-coinbase build that passes its checks pays exactly the required fee, by the independent sum over the finished transaction, to every lookup of earlier outputs that knows the added coins; to every other lookup that contradicts none of them the answer is that the fee is unknown. |
| `TxBuilder.SpentExactly` | zcash_primitives/src/transaction/mod.rs:554-567 | The walk over the inputs gives the total of the known values, or absence exactly when some value is not known. |
| `TxBuilder.BalancesAgree` | zcash_primitives/src/transaction/mod.rs:569-598 | The builder's sum over its pools and the transaction's sum over its bundles have one result, overflow included. |
| `TxBuilder.FeeOf` | zcash_primitives/src/transaction/builder.rs:1409-1460 | There is a fee exactly when every shielded part can be counted, no input is a P2SH coin of unknown length and the closed form is within the money supply; it is then that closed form, of what was added. |
| `BuilderRuns.StandardFee` | zcash_primitives/src/transaction/builder.rs:1409-1460 | Under the standard rule with P2PKH inputs and outputs only, 5000 zatoshis for each of the larger number of inputs and outputs and each shielded action, at least for two. |
| `TxBuilder.ZeroInserted` | zcash_primitives/src/transaction/mod.rs:554-598 | The Sprout zero between the balances changes no prefix sum, so both checked sums succeed or fail together. |
| `TxBuilder.ShortfallIsExact` | zcash_primitives/src/transaction/builder.rs:1603-1618 | The reported shortfall is positive, and one more coin of that value makes the check pass. |
| `TxBuilder.ExcessIsExact` | zcash_primitives/src/transaction/builder.rs:1603-1618 | The reported excess is positive, and one more output of that value makes the check pass. |
| `TxBuilder.StakingMovesItsAmount` | zcash_primitives/src/transaction/components/staking.rs:678-684 | Opening a bond costs its amount, withdrawing one yields it, and no other action moves value. |
| `Builders.FeePaid` | zcash_primitives/src/transaction/mod.rs:554-598 | The walk over the inputs by lookup and the two nested checked sums compute the specified fee, absence or error from the transaction's own parts. |
| `Builders.Builder.constructor` | zcash_primitives/src/transaction/builder.rs:1015-1090 | A new builder is in the specified state, which keeps the invariant. |
| `Builders.Builder.CheckVersionCompatibility` | zcash_primitives/src/transaction/builder.rs:931-991 | The checks report the first failing reason in order. |
| `Builders.Builder.ProposeVersion` | zcash_primitives/src/transaction/builder.rs:1000-1004 | Takes the version exactly when the checks pass. |
| `Builders.Builder.PutStakingAction` | zcash_primitives/src/transaction/builder.rs:1355-1364 | Takes the action exactly in a VCrosslink builder. |
| `Builders.Builder.AddSaplingSpend` | zcash_primitives/src/transaction/builder.rs:1274-1286 | Adds to the Sapling builder if there is one. |
| `Builders.Builder.AddOrchardSpend` | zcash_primitives/src/transaction/builder.rs:1157-1169 | Adds to the Orchard builder if there is one. |
| `Builders.Builder.AddOrchardChangeOutput` | zcash_primitives/src/transaction/builder.rs:1197-1216 | Adds a change output to the Orchard builder if there is one. |
| `Builders.Builder.AddIronwoodSpend` | zcash_primitives/src/transaction/builder.rs:1226-1246 | Adds to the Ironwood builder if there is one and the note has the Ironwood version. |
| `Builders.Builder.AddUpPools` | zcash_primitives/src/transaction/builder.rs:1367-1403 | The checked sum over the pools is the specified balance or error. |
| `Builders.Builder.GetFee` | zcash_primitives/src/transaction/builder.rs:1409-1460 | Counting what was added and asking the fee rule gives the specified fee or refusal. |
| `Builders.Builder.BuildInternal` | zcash_primitives/src/transaction/builder.rs:1557-1822 | Refuses with the first failing check, panics in the signature hash or in freezing, or returns exactly the builder's state with the built bundles. |
| `Builders.Builder.Build` | zcash_primitives/src/transaction/builder.rs:1489-1554 | The same with the fee that the rule asks for what was added, and without one for a coinbase. |

## Left out

- CompactSize, vectors and their size limit (0x02000000) come from the zcash_encoding crate, which is not part of the repository: the model assumes its published form.
- Transparent scripts, inputs, outputs and the sighash constants come from the zcash_transparent crate: the model assumes their published layout.
- Builders.FeePaid: the balance of a transparent bundle is computed in the zcash_transparent crate, which is not part of this model; it is taken to look up and add the spent values in input order, to answer that nothing is known at the first unknown one, and then to subtract the sum of the outputs. A lookup that itself fails is left out.
- The sapling and orchard crates: points, field elements, keys and proofs are fixed-width strings, and which strings are accepted is a parameter (predicates); flag bytes are kept as bytes; a Sapling bundle is built exactly when there is a spend or an output.
- Orchard and Ironwood bundle commitments are uninterpreted functions of the bundle, its absence, the pool and the format; that they can panic on flags foreign to a format is not modelled.
- BLAKE2b, BLAKE3, SHA-256, Ed25519 and Equihash are uninterpreted; nothing is assumed about them, so binding results end in explicit collisions. Batch verification is taken to be the conjunction of its members.
- HashReader and HashWriter are modelled as hashing the bytes consumed and the bytes written.
- The error messages of the source: only the kind of error and, where the source names them, its data.
- Where reading fails, how far the reader has moved.
- HardForks.New: the library's unstable sort is replaced by an insertion sort with the same contract.
- Zip317.FeeRequired: assumes that the input sizes and, when every outpoint is known, output sizes and counts fit the machine word, because the source adds them unchecked.
- Builders.Builder.GetFee: assumes the same wherever the shielded parts can be counted.
- Zip318.IsCanonicalWithin: assumes a positive lower bound, because with a lower bound of zero the source would never finish on the value zero.
- Schedules: fixed networks and any schedule; address prefixes, network names and NU7 are left out.
- Votes.RoundWordRoundTrip: the bit operations on the packed word are modelled as arithmetic on its top bit.
- TxBuilder.FeeOf: how many outputs and actions a Sapling or Orchard builder pads to is decided in their crates, which are not part of this model; those counts, or their absence, are parameters (functions of the bundle type, the bundle version and the numbers of spends and outputs). Fee rules other than ZIP 317 are left out.
- TxBuilder.FeeConservation: takes as hypothesis that the bundles are the ones the pools' builders promise: the transparent one spends the added coins in order and has the added outputs, the shielded ones keep their builders' balances.
- TxBuilder.EveryBuildIsWellFormed: takes as hypotheses that the pools' builders return bundles exactly when they are used or required, and that those bundles are well formed on their own; a Sapling balance outside the balance range counts as an overflow.
- Builders.Builder.AddSaplingSpend: whether the Sapling builder accepts the note (witness and key checks) is an input of the call, because that builder is in another crate.
- Builders.Builder.AddOrchardSpend: whether the Orchard builder accepts the note is an input of the call, for the same reason.
- Builders.Builder.AddOrchardChangeOutput: whether the Orchard builder accepts the output is an input of the call, for the same reason.
- Builders.Builder.AddIronwoodSpend: whether the Ironwood builder accepts the note is an input of the call, for the same reason.
- Builders.Builder.Build: the bundles that the pools' builders return are an input, because those builders are in other crates; where they refuse to build, prove or sign, the build fails before it finishes and the model says nothing.
- Builders.Builder.BuildInternal: takes the same bundles as input.
- The builder's documentation says that transactions expire 20 blocks after the target by default; the code uses 40, and so does the model.
- Coinbase construction of the transparent part, the PCZT and deferred-anchor builders, signing, proving keys and progress reports.
- Signature hashes before v5, except that there are none before Overwinter.
- The block reader's coinbase height check, merkle trees, address and key encodings, the nu7 and zip-233 variants, and zcashd compatibility wrappers.
- ZIP 318 classification, expiry and boundary functions, and the ZIP 212 grace period: one-branch facts.
- Derived forms such as hexadecimal, Debug and JSON output.
