# A verified model of Magi's derivation and fork choice

Magi is a rollup node of the OP Stack. It reads batches, deposits and configuration from L1,
derives L2 blocks from them, and drives an execution engine. This project models that state
machine and the codecs below it in Dafny, and proves what they promise.

The node is modelled twice. Classes follow the Rust structures field by field and method by
method (`Driver`, `EngineDriver`, `AttributesStage`, `Batches`, `State`, `Stage`,
`PendingChannel`, `InnerWatcher`); each method is proved to do what a function on values
says. On those values a node is a state machine (`NodeModel.Step`), and the main results are
about all its runs: any interleaving of L1 blocks, channels, finality updates, gossip, L1
reorgs and driver rounds. `Driver.Advance` ties the classes to those runs.

What the environment owes is stated in one place, `NodeModel.Fair`: L1 blocks have distinct
hashes, an L1 reorg does not reach the finalized epoch, batches are what decoding gives
(`SpanBlocks.SizedSpan`) and name only L1 blocks that have been delivered, spans are aligned to
the block time, and the engine does not refuse the forkchoice of a gossip block it has taken.
Batcher data is handed over with the delivery of its own L1 block (src/driver/mod.rs:279-288),
whose hash or a later one it cannot contain. The engine is a block tree with a canonical head
(`BlockTree`). Hashes and the serialization of transactions are injective values. The model
means a release build, which is what the repository's Dockerfile makes: arithmetic does not
panic on overflow.

For some hypotheses a lemma shows what happens without them: aligned spans
(`Scenarios.UnalignedSpanAccepted`), the forkchoice of gossip blocks
(`ForkChoiceSafety.RefusedGossipBreaksBuild`), no far-starting spans
(`Scenarios.SpanSkipsDeposit`), inclusion order (`Scenarios.FinalityMovesBackInRun`) and scans
that miss nothing (`ChainWatcher.LateUpdateIsLost`). Distinct hashes, batches that cannot name a
hash before there is one, reorgs that stop above the finalized epoch, one update of the
configuration a block, and a provider whose answers agree with one chain are plain assumptions:
nothing is claimed without them.

| file | content |
|---|---|
| `Base`, `Types` | values shared by all modules |
| `BlobCodec` | blobs and their in-place decoder |
| `Wire`, `SpanCodec`, `SpanBlocks`, `Rlp`, `SignedTx` | span batches: columns, rows, blocks, RLP, signed transactions |
| `ChannelBank`, `Channels`, `ChannelRuns` | frames, channels, the channel stage, and what comes out of it |
| `DerivationState` | the L1 and L2 caches |
| `BatchQueue`, `BatchSafety` | batch validity and the batch queue |
| `Attributes`, `L1Attributes` | payload attributes and their calldata |
| `BlockTree`, `ForkChoice`, `ForkChoiceSafety` | the engine and its driver |
| `NodeModel`, `NodeSafety`, `NodeTheorems` | the node, its invariant, its runs |
| `QueueSteps`, `Payloads` | each step of the batch queue, and what derived blocks contain |
| `Restarts` | how runs end, restart and forget |
| `AbortSafety` | when a pull ends the process |
| `CacheSafety` | cached L2 blocks above the safe head do not matter |
| `Sequencing`, `Finality`, `FinalityOrder` | sequence numbers, deposits, finality over runs |
| `Scenarios` | concrete runs in which a guarantee fails |
| `Driver` | the driver and its loops |
| `ConfigScan`, `ConfigEvents`, `ChainWatcher`, `WatcherSteps` | the L1 watcher and its configuration |
| `EndToEnd` | watcher and node: from deposit logs to derived blocks |

`dafny verify dfyconfig.toml` checks the project.

Findings, each with a lemma:

- The watcher marks 1000 blocks as scanned even when the tip is lower. A configuration update
  mined later in that range is missed, and its block is never scanned again
  (`ChainWatcher.LateUpdateIsLost`, `ChainWatcher.ScansMoveOn`). The reports of the range are
  right exactly when its updates set what is set already (`ChainWatcher.BlindWindowReportsIff`);
  a scan finds what it should exactly under the condition of `ConfigScan.ScanFindsFirstIff`.
  The deposit cache stops at the head and has no such gap (`ChainWatcher.ReportsAreNumbered`).
- The sequence number restarts at zero on a reorg, which is right exactly when the finalized
  head opens its epoch (`Sequencing.ReorgCountsRightIff`). After a start in mid-epoch some
  fair run with a reorg has it wrong (`Sequencing.SequenceRightIff`).
- A span's start epoch is compared with an L2 block number (src/derive/stages/batches.rs:338),
  so a span can skip L1 blocks and lose their deposits (`Scenarios.SpanSkipsDeposit`). Only such
  spans do (`BatchSafety.EpochJumpsOnlyBySpan`); deposits are conserved exactly when no skipped
  block has one (`Sequencing.DepositsConservedIff`), and whenever no pull meets such a span
  (`Sequencing.DepositsConserved`).
- A span that is not aligned to the block time is accepted and yields a block off schedule
  (`Scenarios.UnalignedSpanAccepted`, exact condition in `BatchSafety.SpanStepsIffAligned`).
- A pull can end the process. A span without blocks decodes
  (`SpanCodec.EmptySpanDecodes`), and its status panics before any check
  (src/derive/stages/span_batch.rs:107, `Scenarios.EmptySpanPanics`); so does the lookup of an
  origin below the cached L1 blocks (`Scenarios.OldSpanPanics`). A pull whose channel has been
  decoded panics in no other way (`AbortSafety.RunAbortsIff`); decoding a channel can panic too,
  see "Left out".
- Pruning wraps around for a low safe head and drops every cached L2 block
  (`DerivationState.PruneKeepsSafeHeadIff`).
- A channel counts frames without comparing their numbers with its size, so that it can be
  complete without its first frame (`ChannelBank.CompleteWithoutFirst`, exact condition in
  `ChannelBank.CompleteMeansAllIff`).
- The finalized head can move back when L1 inclusion is out of order
  (`Scenarios.FinalityMovesBackInRun`, exact condition in `FinalityOrder.NeverBackIff`).
- A refused forkchoice for a gossip block is ignored, and the next block is built on it
  (`ForkChoiceSafety.RefusedGossipBreaksBuild`).
- The comment on `l1_origin_check` speaks of the last 20 bytes of a hash
  (src/derive/stages/span_batch.rs:20); the code compares the first 20
  (src/derive/stages/batches.rs:344), and so does the model.

## Model

| member | source | states |
|---|---|---|
| `NodeTheorems.DerivedAttributesFollow` | src/derive/stages/batches.rs:87-178 | After any fair run (L1 blocks, channels, finality updates, reorgs, gossip in any order) and for whatever channel comes next, attributes the pipeline yields are exactly one block time after the safe head, with an origin on the L1 chain that is not before the safe epoch and not younger than the block |
| `NodeTheorems.ForkchoiceAlwaysOrdered` | src/driver/engine_driver.rs:39-67 | In every forkchoice that the completed steps of any fair run send, finalized is an ancestor of or equal to safe and safe of the head; every built payload has the safe head of that moment as parent; finalized number <= safe number <= unsafe number |
| `NodeTheorems.BuildRequestsOrdered` | src/driver/engine_driver.rs:39-52 | In every state of every fair run, for whatever channel comes next, the forkchoice with which the engine is asked to build is ordered and has the safe head as head, also when the engine then refuses and the run ends |
| `ForkChoiceSafety.BuildRequestSafe` | src/driver/engine_driver.rs:39-113 | Whether the unsafe head is reset or left, the heads sent with a build request are ordered and on the safe head, and the build proceeds from just these heads |
| `NodeTheorems.FinalizedStaysOnChain` | src/driver/mod.rs:267-339 | No event of a fair run, reorgs included, removes the finalized block or anything below it from the safe chain |
| `NodeTheorems.RunKeepsStart` | src/driver/mod.rs:267-339 | No run removes the blocks the node started from |
| `NodeTheorems.SafeChainOnSchedule` | src/driver/mod.rs:184-227 | In every state of every fair run each block of the safe chain is on its parent, one block time later, with an origin that does not go back and is not younger |
| `AbortSafety.PullAbortsIff` | src/derive/stages/batches.rs:87-122 | In every state of the invariant a pull whose channel is decoded ends the process if and only if nothing is pending and the first stored or arriving batch that is not dropped is a span without blocks, or one that passes its header checks and starts below the cached L1 window |
| `AbortSafety.RunAbortsIff` | src/derive/stages/batches.rs:87-122 | So in every state of every fair run, for whatever batches come next as long as they name only delivered L1 blocks, aligned or not |
| `AbortSafety.EmitsDelivered` | src/derive/stages/attributes.rs:36-41 | Whatever the queue emits then has an origin in the L1 cache, so that looking it up and deriving its attributes does not panic |
| `AbortSafety.RunKeepsNames` | src/driver/mod.rs:267-288 | Over every fair run no stored single batch names the safe epoch's L1 block while that is not delivered, restarts and reorgs included |
| `BatchQueue.ScanAbortsIff` | src/derive/stages/batches.rs:92-122 | A scan aborts exactly when the first batch it does not drop is one whose origin lookup panics |
| `NodeTheorems.LookupsAgreeWithChain` | src/derive/state.rs:67-73 | In every state of every fair run, what a lookup at a scheduled time up to the safe head finds is the safe chain's own block and epoch |
| `CacheSafety.SpanStatusAlike` | src/derive/stages/batches.rs:272-404 | The status of an aligned span is the same for any two caches that differ only in L2 blocks above the safe head, whatever entries a reorg left there |
| `CacheSafety.TryNextAlike` | src/derive/stages/batches.rs:87-171 | So is a whole step of the batch queue: its stored batches, pending blocks and outcome |
| `CacheSafety.StaleEntriesNeverMatter` | src/derive/state.rs:109-128 | From any state a fair run reaches, dropping every cached L2 block above the safe head changes nothing in any fair continuation, reorgs included: the node stops at the same event, or comes to the same heads, chain, queue and requests |
| `NodeTheorems.L1WindowExact` | src/derive/state.rs:85-117 | In every state of every fair run the hash and info caches hold exactly one contiguous range of L1 blocks that starts at or below the safe epoch and ends at `current_epoch_num`, and `epoch_by_number` answers for these and no others |
| `NodeTheorems.ForcedAfterWindow` | src/derive/stages/batches.rs:130-171 | In every state of every fair run an empty block is forced only when more than a sequencing window of L1 blocks has been delivered after its origin, which is the safe epoch or the next; it is empty and attributed to the last block delivered |
| `NodeTheorems.ForcedUnlessSpanJumps` | src/derive/stages/batches.rs:130-171 | In every state of the invariant in which an empty block is due, an aligned span included in the current L1 block or later is accepted only if it starts right after the safe head with an origin more than one above the safe epoch |
| `NodeSafety.StepKeeps` | src/driver/mod.rs:170-339 | Every step of the driver keeps the node invariant: chain, caches, queue, heads and list of unfinalized blocks agree with each other |
| `NodeSafety.RunKeeps` | src/driver/mod.rs:132-339 | Every state of every fair run satisfies the invariant |
| `NodeSafety.InitInv` | src/driver/mod.rs:72-130 | The state the driver starts in satisfies it |
| `NodeSafety.PullKeeps` | src/driver/mod.rs:184-227 | One turn of the derivation loop keeps the invariant |
| `NodeSafety.ReorgKeeps` | src/driver/mod.rs:290-313 | Falling back to the finalized head on an L1 reorg keeps the invariant, though the L2 cache is not cleared |
| `NodeSafety.UnsafeKeeps` | src/driver/mod.rs:230-252 | Handling gossip blocks keeps the invariant |
| `NodeSafety.FinalizeKeeps` | src/driver/mod.rs:324-339 | Finalizing keeps the invariant |
| `NodeSafety.NextSlotIsNext` | src/driver/engine_driver.rs:208-216 | On a chain on schedule the block number computed from the finalized head and the timestamp is the one right above the safe head |
| `NodeSafety.ChainAncestors` | src/driver/engine_driver.rs:177-216 | Earlier blocks of the safe chain are ancestors of later ones in the engine |
| `NodeSafety.NextAttributesGood` | src/derive/stages/attributes.rs:75-117 | Attributes resolve their origin in the L1 cache, continue the count of the epoch, and carry the deposits of exactly that L1 block when they open its epoch |
| `Sequencing.SequenceRight` | src/derive/stages/attributes.rs:188-196 | From an epoch's first block on, in every state of every fair run with any number of reorgs, the stage's sequence number is the safe head's position in its epoch counted on the chain, and only first blocks of epochs are finalized |
| `Sequencing.SequenceRightIff` | src/derive/stages/attributes.rs:46-50 | The count is right in all fair runs if and only if the node starts at the first block of an epoch |
| `Sequencing.ReorgCountsRightIff` | src/derive/stages/attributes.rs:46-50 | Restarting the count at zero on a reorg is right exactly when the finalized head is the first block of its epoch |
| `Sequencing.DepositsConservedIff` | src/derive/stages/attributes.rs:119-183 | In every state of every fair run the deposits in the derived blocks, in order, are those of all L1 blocks after the starting epoch up to the safe epoch, each once, if and only if no L1 block that was skipped as an origin carries one |
| `Sequencing.SmallStepsSkipNothing` | src/derive/stages/batches.rs:219-226 | When origins step by zero or one nothing is skipped, so deposits are conserved |
| `Sequencing.DepositsConserved` | src/derive/stages/batches.rs:324-341 | In every fair run in which no pull looks at an acceptable span that starts right after the safe head more than one above the safe epoch, origins step by at most one and all deposits up to the safe epoch are derived, each once, reorgs included |
| `EndToEnd.DerivedDepositsAreLogs` | src/l1/chain_watcher.rs:232-442 | Watcher and node composed: when the L1 blocks that serve as origins are reports of watcher runs, with any failures and restarts, and no pull meets a span that skips an L1 block, the deposits in the derived blocks are the deposit logs of L1 after the starting epoch and up to the safe epoch, each once and in order |
| `EndToEnd.WatchedDeposits` | src/l1/chain_watcher.rs:407-442 | A block that any consistent run of the watcher reports carries just the deposit logs of its own number |
| `Scenarios.SpanSkipsDeposit` | src/derive/stages/batches.rs:338-341 | A fair run from genesis: one arriving span is accepted with origin 2 on a block with origin 0, and the deposit of L1 block 1 is in no derived block |
| `Sequencing.DepositsAlwaysPlaced` | src/derive/stages/attributes.rs:168-183 | In every state of every fair run a block carries its origin's deposits exactly when it opens the epoch |
| `Attributes.DepositsOfBlock` | src/derive/stages/attributes.rs:119-152 | Among the transactions of a block the user deposits are those of its origin, in order, if it is the first of its epoch, and none otherwise |
| `Finality.FinalityProgresses` | src/driver/mod.rs:324-339 | With inclusion in order and L1 finality that never retreats, the finalized head never moves back over any run, and every newly derived block at or below it has its data in finalized L1 blocks |
| `Finality.FinalizeProgress` | src/driver/mod.rs:324-339 | One finalization under that order moves the head forward or leaves it |
| `FinalityOrder.NeverBackIff` | src/driver/mod.rs:324-339 | In every state of the invariant: however L1 finality goes on rising and whenever the driver finalizes, the finalized head never moves back if and only if each waiting first block of an epoch below the finalized head is covered by one not below it that is final no later, and wherever a later one is included before an earlier one, a third after both shields it by becoming final in between |
| `FinalityOrder.FinalizedNeverBack` | src/driver/mod.rs:324-339 | Over every fair run, reorgs and derivation included, in which L1 finality never retreats and overtaken blocks are always shielded, the finalized head never moves back |
| `FinalityOrder.FinalizedReaches` | src/driver/mod.rs:324-339 | In every fair run in which the finalized head never moves back it is, after each finalization, the last block of the safe chain that opens its epoch and has its data in finalized L1 blocks, or stays where it was if that is further; nothing whose data is final waits any longer |
| `FinalityOrder.SteadyStays` | src/driver/mod.rs:324-339 | The condition survives each finalization, so it need only hold once |
| `FinalityOrder.SortedIsRecoverable` | src/driver/mod.rs:324-339 | Inclusion in order is one way to meet the condition |
| `Scenarios.FinalityMovesBackInRun` | src/driver/mod.rs:324-339 | A fair run from genesis with rising L1 finality in which two batches arrive in the reverse order of their slots, and the finalized head goes from block 3 back to block 2 |
| `QueueSteps.AcceptedStep` | src/derive/stages/batches.rs:87-129 | In every state of the invariant with nothing pending: when the first stored or arriving batch that is not dropped is accepted, a single one gives its one block and a span exactly its blocks after the safe head, the first now and the rest pending in order; it and all before it leave the queue, and nothing else does |
| `QueueSteps.ForcedIff` | src/derive/stages/batches.rs:130-171 | With nothing pending and no batch that decides, an empty block is emitted if and only if the L1 block e + 1 after the safe epoch e is delivered and more than a sequencing window has been delivered past the origin, which is e for a slot before the time of block e + 1 and else e + 1; it is for the next slot and attributed to the last block delivered |
| `QueueSteps.RunForcedIff` | src/derive/stages/batches.rs:130-171 | So in every state of every fair run, for whatever channel comes next |
| `QueueSteps.ScanStopsAt` | src/derive/stages/batches.rs:103-129 | The first batch that is not dropped decides, and what is after it stays as it is |
| `QueueSteps.UndecodableLosesNothing` | src/derive/stages/batches.rs:93-101 | With nothing pending, a channel that does not decode ends its pull with nothing emitted, and the next pull does what it would have done without it |
| `QueueSteps.PendingDrains` | src/derive/stages/batches.rs:87-91 | Pending blocks come out one by one and in order, whatever channels come and however the caches change, before any batch is looked at |
| `Payloads.PullYieldsPayload` | src/derive/stages/attributes.rs:75-163 | In every state of the invariant, attributes that the pipeline yields are made of the block the queue emits and the L1 block it names: the first transaction tells number, hash, time, base fee, place in the epoch, batcher and fees of that L1 block; then come its deposits if the block opens the epoch, the six upgrades exactly at Ecotone, and last the batch's transactions, all in order; randao and gas limit are the origin's, withdrawals are present exactly from Canyon |
| `Payloads.RunYieldsPayload` | src/derive/stages/attributes.rs:75-163 | So in every state of every fair run, for whatever channel comes next |
| `Payloads.BlockIsDetermined` | src/derive/stages/attributes.rs:119-152 | This description leaves nothing open: two lists of transactions that fit it are equal |
| `Payloads.PullComposes` | src/driver/mod.rs:184-227 | The block that a pull adds to the safe chain is composed so, of the transactions of the block that the queue emitted |
| `Payloads.BlocksComposed` | src/driver/mod.rs:184-227 | In every state of every fair run, reorgs included, each derived block of the safe chain is composed so from its origin on the present L1 chain |
| `Restarts.PullEndsIff` | src/driver/mod.rs:196-224 | A pull ends the run if and only if the pipeline aborts, or its attributes are not met by the canonical block and the engine refuses the one it builds; otherwise the safe chain grows by one block with the transactions of the attributes, which is the only entry that the L2 cache gets, or nothing changes when there are none |
| `Restarts.ReorgIsNewStart` | src/driver/mod.rs:290-313 | After an L1 reorg in any fair run the node is one that has just been started at its finalized head on the new L1 chain, so that every result about fair runs holds again from there; it differs only in the engine, L1 finality, gossip blocks and cached L2 blocks, which a reorg leaves alone, and in the sequence number |
| `Restarts.StartSeesWholeChannels` | src/driver/mod.rs:367-369 | A started node reads exactly those L1 blocks in which a channel that comes out at the safe epoch or later, within its timeout, may have a frame |
| `Restarts.DeliveryForgets` | src/derive/state.rs:133-158 | In every fair run a delivered L1 block makes the caches forget exactly the L1 blocks more than a sequencing window before the safe epoch, and exactly the L2 blocks further below the safe head than the sequencer drift in blocks, or all of them while the head is lower than that |
| `BatchSafety.TryNextSafe` | src/derive/stages/batches.rs:87-171 | One step of the queue: an emitted block (pending, single, span or forced empty) is one block time after the safe head, its origin is not before the safe epoch and not younger than the block, and the blocks left pending are chained to it |
| `BatchSafety.EpochJumpsOnlyBySpan` | src/derive/stages/batches.rs:324-341 | An emitted origin is more than one above the safe epoch only for an accepted span right after the safe head that starts there: its start epoch is compared with an L2 block number |
| `BatchSafety.SpanFollows` | src/derive/stages/batches.rs:272-404 | The first new block of an accepted aligned span follows the safe chain; an overlapping span continues with the origin the chain already has |
| `BatchSafety.SpanChained` | src/derive/stages/batches.rs:272-404 | The remaining blocks of an accepted span follow one another |
| `BatchSafety.SpanStepsIffAligned` | src/derive/stages/batches.rs:281-294 | The first new block of a span that reaches back to the safe head is one block time after it if and only if the span starts a whole number of block times before |
| `Scenarios.UnalignedSpanAccepted` | src/derive/stages/batches.rs:281-294 | A fair run from genesis after which a span that starts half a block time off is accepted, and the block emitted is one second after the safe head where the block time is two |
| `BatchSafety.NewBlocksOfSpan` | src/derive/stages/batches.rs:173-179 | The blocks of an accepted aligned span that survive the filter are exactly those after the overlap |
| `BatchSafety.OriginResolvedIff` | src/derive/state.rs:85-93 | The origin of an emitted block can be looked up exactly when its L1 block has been delivered |
| `BatchSafety.ForcedEmission` | src/derive/stages/batches.rs:130-171 | A forced empty block follows the safe chain with an origin at most one above the safe epoch |
| `BatchSafety.ForcedOnlyWhenExpired` | src/derive/stages/batches.rs:130-171 | When an empty block is forced, no single batch included in the current L1 block or later can still be accepted or wait; for spans see `NodeTheorems.ForcedUnlessSpanJumps` |
| `BatchQueue.SingleAcceptIff` | src/derive/stages/batches.rs:189-269 | A single batch is accepted if and only if it is the next block, on the safe head, in its window, with the hash of an origin that is the safe epoch or the next, within drift, and none of its transactions is empty or starts with 0x7E |
| `BatchQueue.SingleUndecidedIff` | src/derive/stages/batches.rs:189-269 | It waits exactly when the L1 block after the safe epoch is needed and not delivered yet: as its origin, or to tell whether an empty late batch may stay in its epoch |
| `BatchQueue.SpanUndecidedIff` | src/derive/stages/batches.rs:272-404 | A span waits exactly when it starts in an epoch that is not delivered yet, or its first block that cannot be accepted is late and empty and the end of its epoch is unknown |
| `BatchQueue.InsertsLast` | src/derive/stages/batches.rs:93-101 | Of arriving batches with the same timestamp the last is stored, in place of any stored before |
| `BatchQueue.InsertLeaves` | src/derive/stages/batches.rs:93-101 | Timestamps at which none arrives keep what is stored |
| `BatchQueue.SpanAcceptIff` | src/derive/stages/batches.rs:272-404 | A span with blocks, one that starts at L1 block 0 with an origin bit included, is accepted if and only if it reaches the next block, stands on a cached block with its parent check, is in its window and after Delta, names a known last origin, and each of its blocks keeps the drift rule and agrees with the safe chain where they overlap |
| `BatchQueue.FutureIff` | src/derive/stages/batches.rs:281-294 | A batch with blocks is left for later exactly when it starts after the next block |
| `BatchQueue.ScanIsComplete` | src/derive/stages/batches.rs:92-122 | Stopping at a first batch that lies in the future loses nothing: all stored batches start in the future, and none of them would be accepted |
| `BatchQueue.ScanKeeps` | src/derive/stages/batches.rs:92-122 | A scan removes batches from the front only; what it removes is dropped as invalid or is the accepted one, which is valid; every batch stays under its own timestamp |
| `BatchQueue.CrashIff` | src/derive/stages/batches.rs:272-363 | For whatever batch decoding gives, its status panics exactly for a span without blocks, on which the first origin bit is read, and for a span that passes the checks of its header and starts below the cached L1 blocks |
| `BatchQueue.WrappedIsDropped` | src/derive/stages/batches.rs:279-341 | A span with more origin bits than L1 blocks, whose start epoch wraps around, is dropped or left for later by the checks of the header as long as block numbers stay below the wrapped epoch |
| `Scenarios.OldSpanPanics` | src/derive/stages/batches.rs:360-363 | A fair run from a start at origin 1 after which an arriving aligned span that overlaps the head and claims origin 0 ends the process |
| `Scenarios.EmptySpanPanics` | src/derive/stages/span_batch.rs:100-108 | A fair run from genesis after which the arrival of one span without blocks ends the process |
| `SpanCodec.EmptySpanDecodes` | src/derive/stages/span_batch.rs:36-59 | For every lawful codec such a span survives encoding, so that decoding hands it on |
| `BatchQueue.Batches.ScanBatches` | src/derive/stages/batches.rs:92-122 | The loop over the stored batches terminates, each drop shrinking the map, and computes the scan |
| `BatchQueue.Batches.GetStatus` | src/derive/stages/batches.rs:181-404 | The status with its two loops over the blocks of a span is the specified one, computed without side effects |
| `BatchQueue.Batches.CheckDrift` | src/derive/stages/batches.rs:361-386 | The drift loop finds the first objection to a block of the span |
| `BatchQueue.Batches.CheckOverlap` | src/derive/stages/batches.rs:389-401 | So does the overlap loop |
| `BatchQueue.Batches.InsertBatches` | src/derive/stages/batches.rs:93-101 | Arriving batches are stored under their timestamps, later ones replacing earlier |
| `BatchQueue.Batches.Next` | src/derive/stages/batches.rs:87-171 | The stage emits, waits or aborts, and changes its map and pending inputs, as the step does that `QueueSteps.AcceptedStep`, `QueueSteps.ForcedIff`, `QueueSteps.PendingDrains` and `BatchQueue.ScanAbortsIff` describe case by case |
| `BatchQueue.Batches.Purge` | src/derive/stages/batches.rs:54-58 | A purge empties the stage |
| `DerivationState.WindowAdvances` | src/derive/state.rs:96-146 | The next L1 block keeps the cached window contiguous, moving both ends |
| `DerivationState.EpochByNumberExact` | src/derive/state.rs:85-93 | Within a window the lookup by number answers for exactly its blocks |
| `DerivationState.PruneKeepsSafeHeadIff` | src/derive/state.rs:148-158 | Pruning keeps the cached safe head if and only if its number is at least max_seq_drift / blocktime; below that the subtraction wraps and all cached L2 blocks go |
| `DerivationState.State.UpdateL1Info` | src/derive/state.rs:96-107 | An L1 block is stored under number and hash and the caches are pruned |
| `DerivationState.State.UpdateSafeHead` | src/derive/state.rs:122-128 | The new safe head is cached |
| `DerivationState.State.Purge` | src/derive/state.rs:111-118 | A purge forgets the L1 caches, keeps the L2 cache and resets the safe head |
| `DerivationState.State.PruneL1` | src/derive/state.rs:133-146 | The loop drops exactly the L1 blocks below the bound from both maps |
| `DerivationState.State.PruneL2` | src/derive/state.rs:148-158 | The loop drops exactly the L2 blocks below the bound |
| `Attributes.AttributesStage.UpdateSequenceNumber` | src/derive/stages/attributes.rs:188-196 | The count restarts when the origin changes and goes on otherwise |
| `Attributes.AttributesStage.Next` | src/derive/stages/attributes.rs:36-117 | The stage takes the queue's next block, resolves its origin, counts it in its epoch and makes of it the attributes that `Payloads.PullYieldsPayload` describes; a block whose origin is unknown aborts |
| `Attributes.AttributesStage.Purge` | src/derive/stages/attributes.rs:46-50 | A purge resets count, epoch hash and queue |
| `Driver.Driver.HandleNextBlockUpdate` | src/driver/mod.rs:267-317 | No update leaves the node alone; L1 blocks, reorgs and finality updates change the whole of it as the model's events do |
| `Driver.Driver.AdvanceSafeHead` | src/driver/mod.rs:184-227 | It takes the next update, syncs the state and pulls again exactly as long as a pull yields attributes, stops with the first that yields none, and fails exactly when a pull ends the run; outcome, number of inputs used and whole new state are those of the specification `Drained` |
| `Driver.DrainedIsRun` | src/driver/mod.rs:184-227 | What the loop does is the run of the state machine over the inputs it uses |
| `Driver.DrainsUntilIdle` | src/driver/mod.rs:184-227 | Every pull of the loop but the last yields attributes, and the last, if there is more to read, yields none or ends the run |
| `Driver.Driver.PullOnce` | src/driver/mod.rs:196-224 | One turn of that loop is a pull; it ends the run exactly when the pull does |
| `Driver.Driver.AdvanceUnsafeHead` | src/driver/mod.rs:230-252 | Gossip blocks too old or too far ahead are dropped, and the child of the unsafe head is handed to the engine |
| `Driver.Driver.UpdateFinalized` | src/driver/mod.rs:324-339 | The last block that may be finalized becomes finalized, and blocks whose data is final leave the list |
| `Driver.Driver.Advance` | src/driver/mod.rs:170-181 | One round takes an update if there is one, syncs the state, drains the pipeline, handles gossip and finalizes, in this order; it fails exactly when a pull ends the run |
| `Driver.RoundIsRun` | src/driver/mod.rs:170-181 | A round, its update included, is a run of the state machine over the inputs it uses |
| `Driver.RoundIsFair` | src/driver/mod.rs:170-181 | From every state of the invariant a round with aligned inputs that name delivered L1 blocks, a reorg above the finalized epoch if any, and no refused forkchoice is a fair run, so all results about fair runs hold of any number of rounds |
| `NodeModel.RunConcat` | src/driver/mod.rs:134-146 | Runs compose: running two sequences of events one after the other is running their concatenation, and as fair |
| `ForkChoiceSafety.AttributesHandledSafe` | src/driver/engine_driver.rs:39-127 | Handling the attributes of the next slot, by skipping, by building after a reset of the unsafe head, or by building where no block is found, keeps all forkchoices ordered and moves the safe head to its child that is what the attributes ask for |
| `ForkChoiceSafety.AttributesSettled` | src/driver/engine_driver.rs:39-127 | If the canonical block of the next slot agrees with the attributes in time, transactions, randao, fee recipient and gas limit, it becomes the safe head, the unsafe head stays unless it is lower, and one plain forkchoice is sent; otherwise a block is built on the safe head and becomes safe, unsafe and canonical head with just two requests, which fails exactly when its hash is taken; either way the new safe block has all five |
| `ForkChoiceSafety.NoBlockMeansAtTip` | src/driver/engine_driver.rs:208-216 | With no canonical block above the safe head, the unsafe head is the safe head, so not resetting it is right |
| `ForkChoiceSafety.GossipHandledSafe` | src/driver/engine_driver.rs:55-67 | A gossip block on the unsafe head keeps the heads ordered and changes only the unsafe head |
| `NodeTheorems.GossipAdvances` | src/driver/mod.rs:230-252 | When a block right above the unsafe head and on it is stored or arrives, and the engine takes and accepts what it is handed, some child of the old unsafe head becomes unsafe and canonical head; without a block on it at most 1023 above nothing moves; exactly the blocks 1 to 1023 above are kept |
| `NodeTheorems.RetainedExact` | src/driver/mod.rs:236-240 | Blocks from gossip are kept exactly while they are above the unsafe head by 1 to 1023 |
| `ForkChoiceSafety.BuiltOnSafeIff` | src/driver/engine_driver.rs:39-113 | In any state a payload is built on the safe head exactly when a block was found at its slot or the unsafe head is the safe head |
| `ForkChoiceSafety.RefusedGossipBreaksBuild` | src/driver/mod.rs:230-252 | If the engine refuses the forkchoice of a gossip block, whose error is discarded, the next payload is built on that block and not on the safe head |
| `ForkChoice.EngineDriver.HandleAttributes` | src/driver/engine_driver.rs:39-52 | The canonical block of the next slot is looked up, compared and taken over or built anew with just the heads and requests of `ForkChoiceSafety.AttributesSettled`; it fails exactly when the engine refuses |
| `ForkChoice.EngineDriver.ProcessAttributes` | src/driver/engine_driver.rs:96-113 | Build, push and forkchoice in this order, with these heads |
| `ForkChoice.EngineDriver.UpdateSafeHead` | src/driver/engine_driver.rs:177-196 | The unsafe head follows on a reorg or when it would fall behind |
| `ForkChoice.EngineDriver.HandleUnsafePayload` | src/driver/engine_driver.rs:55-67 | A refused block changes nothing; an accepted one becomes the unsafe head even if its forkchoice is refused |
| `ForkChoice.EngineDriver.Reorg` | src/driver/engine_driver.rs:76-80 | Safe and unsafe heads fall back to the finalized head |
| `BlockTree.ChildOnBranch` | src/driver/engine_driver.rs:116-127 | In a block tree, the block of the canonical chain right above an ancestor is its child |
| `BlockTree.AncestorsOrdered` | src/driver/engine_driver.rs:177-196 | Two ancestors of a block are ordered by their numbers |
| `BlobCodec.RoundTrip` | src/l1/blob_encoding.rs:10-75 | Every byte string of at most 130044 bytes comes back from its encoding |
| `BlobCodec.DecodedIffEncoded` | src/l1/blob_encoding.rs:10-75 | A blob decodes to some data if and only if, but for the two ignored bits of its first byte, it is the encoding of that data |
| `BlobCodec.Canonical` | src/l1/blob_encoding.rs:31-75 | Two accepted blobs with the same data are equal byte for byte if and only if the ignored bits agree |
| `BlobCodec.UnpackPack` | src/l1/blob_encoding.rs:100-110 | Gathering three bytes into four 6-bit chunks loses nothing |
| `BlobCodec.PackUnpack` | src/l1/blob_encoding.rs:100-110 | Spreading four chunks with clear top bits over three bytes loses nothing |
| `BlobCodec.PackOfUnpack` | src/l1/blob_encoding.rs:31-75 | Over a whole blob of valid field elements, packing undoes unpacking |
| `BlobCodec.UnpackOfPack` | src/l1/blob_encoding.rs:31-75 | Over all carried bytes, unpacking undoes packing |
| `BlobCodec.DecodeBlobData` | src/l1/blob_encoding.rs:10-75 | The in-place decoder with its two cursors stays within its buffers for every 131072-byte input and returns what is specified, the first failing check included |
| `BlobCodec.DecodeRounds` | src/l1/blob_encoding.rs:37-61 | After r rounds past round 0 the cursors are at 123 + 127r and 128(r + 1), and the output holds the carried bytes |
| `BlobCodec.DecodeFieldElement` | src/l1/blob_encoding.rs:79-97 | One field element is checked and copied, and the cursors moved past it |
| `BlobCodec.ReassembleBytes` | src/l1/blob_encoding.rs:100-110 | The three gathered bytes go to the gaps 32 bytes apart |
| `ChannelBank.CompleteIffAllArrived` | src/derive/stages/channels.rs:165-189 | Whatever the order and the repetitions in which frames of a well-formed channel arrive, it is complete exactly when all have arrived |
| `ChannelBank.AssemblesOriginal` | src/derive/stages/channels.rs:192-198 | A complete channel assembles to the original data |
| `ChannelBank.CompleteMeansAllIff` | src/derive/stages/channels.rs:182-184 | For arbitrary frames, a channel counted as complete has all frames below its size if and only if it has none at or above it |
| `ChannelBank.CompleteWithoutFirst` | src/derive/stages/channels.rs:182-198 | Frames 1, marked last, and 5 make a channel complete without frame 0, and it is assembled without it |
| `ChannelBank.ChannelAtHighest` | src/derive/stages/channels.rs:201-208 | The inclusion block of a channel is its highest L1 block |
| `ChannelBank.PushedOk` | src/derive/stages/channels.rs:211-230 | Pushing a frame keeps frame numbers unique and the L1 bounds the true minimum and maximum |
| `Channels.BankAlwaysOk` | src/derive/stages/channels.rs:57-146 | Between any calls of the stage, purges included: ids and frame numbers are unique, L1 bounds are true, no channel is timed out or complete, the total size fits, and a channel that comes out was complete and in time |
| `ChannelRuns.ChannelsAreIndependent` | src/derive/stages/channels.rs:57-146 | As long as nothing has to be pruned, the bank holds of each channel exactly what comes of that channel's own frames since it was opened, and a frame brings out just what they bring out, whatever frames of other channels come in between |
| `ChannelRuns.ChannelComesOut` | src/derive/stages/channels.rs:106-121 | Every channel that is sent comes out: after any calls, the call that takes in the last frame a well-formed channel waits for, in any order, repeated and interleaved with others, within the timeout and with nothing to prune, stops there and returns its original data with the highest L1 block of its frames |
| `ChannelRuns.CallsAreFed` | src/derive/stages/channels.rs:22-44 | The bank after any calls is that of feeding it, frame by frame, what the calls took in since the last purge |
| `ChannelRuns.CallTakesOne` | src/derive/stages/channels.rs:106-121 | Each call takes in at least one frame if any waits or arrives, in order, and leaves the others waiting |
| `ChannelRuns.BankIsOpened` | src/derive/stages/channels.rs:57-146 | With pruning too, each pending channel is exactly what came of the frames of its id since one of them opened it |
| `Channels.PrunedIsLongestSuffix` | src/derive/stages/channels.rs:141-146 | Pruning keeps the longest suffix that fits |
| `Channels.PushTouchesOneChannel` | src/derive/stages/channels.rs:62-80 | A frame changes no channel but its own |
| `Channels.ProcessKeeps` | src/derive/stages/channels.rs:106-121 | Processing frames keeps the bank in order and leaves frames waiting only behind a channel that came out |
| `Channels.PendingChannel.PushFrame` | src/derive/stages/channels.rs:211-230 | Repeated frames are ignored, and bounds and size follow the first of each number |
| `Channels.PendingChannel.Assemble` | src/derive/stages/channels.rs:192-198 | Frames are sorted by number and concatenated |
| `Channels.Stage.PushFrame` | src/derive/stages/channels.rs:62-80 | A frame opens a channel, joins the frames of one, or drops one that has timed out by it; what comes of this over any calls is `ChannelRuns.ChannelsAreIndependent` and `ChannelRuns.BankIsOpened` |
| `Channels.Stage.Prune` | src/derive/stages/channels.rs:141-146 | The loop terminates, and there is a channel to drop whenever the bank is too large |
| `Channels.Stage.FetchReadyChannel` | src/derive/stages/channels.rs:93-103 | A complete channel leaves the bank assembled |
| `Channels.Stage.ProcessFrames` | src/derive/stages/channels.rs:106-121 | The loop over the frame bank is push, prune and fetch for each frame until a channel is ready; which channels become ready is `ChannelRuns.ChannelComesOut` |
| `SpanBlocks.BlocksPartitionSpan` | src/derive/stages/span_batch.rs:62-108 | The blocks of a span partition it: all transactions in order, timestamps by block time, origins by the origin bits from the start epoch to the span's L1 origin |
| `SpanBlocks.BlockSizes` | src/derive/stages/span_batch.rs:62-97 | Each block gets as many transactions as its count says |
| `SpanBlocks.EpochsMonotone` | src/derive/stages/span_batch.rs:62-108 | Origins never go back within a span |
| `SpanBlocks.ComputeBlockInputs` | src/derive/stages/span_batch.rs:62-97 | The loop with its running counters yields these blocks without leaving the lists |
| `SpanCodec.TransactionsRoundTrip` | src/derive/stages/span_batch.rs:149-290 | For any codec with the laws of RLP on 256-bit numbers, byte strings and access lists, decoding undoes the columnar encoding of every list of legacy, type-1 and type-2 transactions: each comes back as it was signed |
| `SpanCodec.SpanRoundTrip` | src/derive/stages/span_batch.rs:36-59 | With such a codec every span batch survives encoding, whatever bytes follow it |
| `RlpCodec.RlpIsLawful` | src/derive/stages/span_batch.rs:307-371 | RLP itself, with its short and long forms, nested access lists and any data behind, meets what the span encoding asks of a codec |
| `RlpCodec.SpansSurvive` | src/derive/stages/span_batch.rs:36-59 | With RLP every span batch of signed transactions survives encoding, whatever bytes follow it |
| `SpanCodec.RowIsTransaction` | src/derive/stages/span_batch.rs:176-287 | Row i of the columns is transaction i, with v rebuilt from parity and the protected bit |
| `SignedTx.ReadsBackSigned` | src/derive/stages/span_batch.rs:176-287 | A reader of signed transactions, by their type byte and the fields in the order of their formats, gets back from the serialized form each field of a legacy, type-1 or type-2 transaction, signature and v included |
| `SignedTx.DecodedReadAsSigned` | src/derive/stages/span_batch.rs:149-290 | With RLP, each transaction decoded from the columns of any list is read as the one that was signed |
| `SpanCodec.RowInBounds` | src/derive/stages/span_batch.rs:166-206 | The indexes of addresses and protected bits are the counts of such rows before row i, and in bounds |
| `SpanCodec.SparseColumns` | src/derive/stages/span_batch.rs:149-290 | The sparse columns have an entry for just the rows that need one, in order |
| `SpanCodec.TxDataRoundTrip` | src/derive/stages/span_batch.rs:307-371 | With such a codec transaction data of each type survives encoding whatever follows it; items of different kinds may print alike |
| `SpanCodec.TxDataNeedsItems` | src/derive/stages/span_batch.rs:307-371 | Transaction data whose list has more items than its type needs is read all the same, from the first ones, and one with fewer not at all |
| `SpanCodec.DecodedSpanIsSized` | src/derive/stages/span_batch.rs:36-59 | Whatever bytes a span is decoded from, its lists have the sizes its counts announce |
| `SpanCodec.ReadColumns` | src/derive/stages/span_batch.rs:149-172 | The column loops read what is specified |
| `SpanCodec.BuildRow` | src/derive/stages/span_batch.rs:176-287 | One row is serialized from its columns |
| `SpanCodec.BuildRows` | src/derive/stages/span_batch.rs:176-289 | The row loop with its two running indexes builds every transaction |
| `SpanCodec.ReadSpan` | src/derive/stages/span_batch.rs:36-59 | The decoder reads what is specified |
| `Wire.BitlistRoundTrip` | src/derive/stages/span_batch.rs:117-133 | Every bit list survives encoding as one big-endian number |
| `Wire.BitlistBytes` | src/derive/stages/span_batch.rs:117-133 | A bit list takes the fewest bytes that hold it, and is read exactly when there are as many, leaving the rest |
| `Wire.ReadBitlist` | src/derive/stages/span_batch.rs:117-133 | The bit loops over the reversed bytes read that list |
| `Wire.UvarintRoundTrip` | src/derive/stages/span_batch.rs:293-304 | Every number survives its LEB128 form |
| `Wire.BigEndianRoundTrip` | src/derive/stages/span_batch.rs:449-453 | Every 32-byte number survives its big-endian form |
| `Wire.ManyRoundTrip` | src/derive/stages/span_batch.rs:293-304 | A list of items that each survive encoding survives it |
| `Wire.ReadMany` | src/derive/stages/span_batch.rs:293-304 | The loop of the list decoders decodes item after item |
| `ChainWatcher.ReportsAreReadings` | src/l1/chain_watcher.rs:232-296 | Over every run, however many attempts fail and are repeated, report k is about the k-th block from the start block, with the configuration that is the fold of all updates after the start block (at most one a block, and no scan of the run missing the next) and the deposits of just that block in log order |
| `ChainWatcher.CacheAlwaysRight` | src/l1/chain_watcher.rs:407-442 | Over every run, whatever fails or is missed, the deposit cache holds just the deposits of each of its blocks, only blocks still to come, and at most 1001 of them |
| `WatcherSteps.AttemptReportsIff` | src/l1/chain_watcher.rs:232-296 | From any state: an attempt sends a finality update exactly when the current block is above the finalized one and the provider names a higher one; it reports a block, and moves on, exactly when no request before fails, the block is not above the head, and its requests are answered, where finality, head, updates and deposits are each asked for only when they are needed |
| `WatcherSteps.LookaheadServes` | src/l1/chain_watcher.rs:407-442 | Exactly which blocks have cached deposits after an attempt: reading deposits that are not cached caches those of the following blocks up to the head and at most 1000 ahead, also when the attempt then fails; reading cached ones takes them out; nothing else changes the cache |
| `WatcherSteps.RememberedAfter` | src/l1/chain_watcher.rs:232-284 | What is remembered after an attempt: of what was, all or what is above a finality that rose, and the block read unless finality is above it |
| `WatcherSteps.RunRemembers` | src/l1/chain_watcher.rs:232-284 | After every run the watcher remembers every block it has read above the finalized block, and none that it has not read or that is below it |
| `WatcherSteps.ReorgAgainstLastRead` | src/l1/chain_watcher.rs:362-371 | After every run a block that is read is reported as a reorg, above finality, exactly when its parent hash is not the hash of the block read before; the first block and blocks below finality never are |
| `ChainWatcher.UpdateIsRight` | src/l1/chain_watcher.rs:298-360 | After an update of the configuration it is that of a block by block reading up to the current block |
| `ChainWatcher.UpdateAgain` | src/l1/chain_watcher.rs:298-360 | Repeating a failed attempt does not change the configuration |
| `ChainWatcher.RunUpdatesAgain` | src/l1/chain_watcher.rs:298-360 | So after every run, whatever its scans missed |
| `ChainWatcher.BlindWindowRightIff` | src/l1/chain_watcher.rs:298-360 | The configuration held over the 1000 blocks of a scan that found nothing is right if and only if every update in them sets what is set already |
| `ChainWatcher.BlindUntil` | src/l1/chain_watcher.rs:298-360 | Over every run after such a scan, each block of the window is reported with the unchanged configuration |
| `ChainWatcher.BlindWindowReportsIff` | src/l1/chain_watcher.rs:298-360 | Over runs: when a scan finds nothing, the reports on all 1000 blocks it covers are those of a block by block reading if and only if each update in those blocks sets what is set already, however attempts fail and are repeated |
| `ChainWatcher.ReportsAreNumbered` | src/l1/chain_watcher.rs:232-296 | Whatever scans miss, the reports are of consecutive blocks with just their own deposits |
| `ChainWatcher.ScansMoveOn` | src/l1/chain_watcher.rs:298-360 | No scan goes back, so an update that its block's scan missed is never seen by a later one |
| `ChainWatcher.LateUpdateIsLost` | src/l1/chain_watcher.rs:298-360 | A run of three attempts that follow the tip: the update in block 2 is mined after the scan that covers it, and the report of block 2 does not have it |
| `ChainWatcher.ReorgReportedIff` | src/l1/chain_watcher.rs:362-371 | A reorg is reported exactly when the block before is remembered, the block is not below the finalized one, and it does not extend the block before |
| `ChainWatcher.RunReorgIff` | src/l1/chain_watcher.rs:232-296 | After every run, whatever its scans missed, an attempt reports a reorg exactly when it comes to read a block that does not extend the remembered block before it and is not below the finalized one |
| `ChainWatcher.FinalityNeverRetreats` | src/l1/chain_watcher.rs:232-246 | The finality reported over any run is strictly rising, whatever the provider answers |
| `ChainWatcher.QueryKeepsBlock` | src/l1/chain_watcher.rs:416-437 | Filtering a range query by block gives just that block's deposits |
| `ChainWatcher.InnerWatcher.GetDeposits` | src/l1/chain_watcher.rs:407-442 | Each call returns exactly the block's deposits in log order, from the cache or by filling it up to 1000 blocks ahead; the final removal always finds its entry |
| `ChainWatcher.InnerWatcher.UpdateSystemConfig` | src/l1/chain_watcher.rs:298-360 | The method applies the update that is due and scans for the next, and does nothing when the request fails; what the configuration then is, field by field, is `ChainWatcher.UpdateIsRight` with `ConfigEvents.ConfigByFields` |
| `ChainWatcher.InnerWatcher.TryIngestBlock` | src/l1/chain_watcher.rs:232-296 | An attempt changes every field, and sends, as specified, failures at every request included; when it reports is `WatcherSteps.AttemptReportsIff` |
| `ConfigScan.ScanSeesIff` | src/l1/chain_watcher.rs:301-316 | The scan sees an update exactly when the first log of its 1000 blocks in chain order is one and its block is mined |
| `ConfigScan.ScanFindsFirstIff` | src/l1/chain_watcher.rs:301-316 | The scan finds what a search of all 1000 blocks would find exactly when those blocks have no update, or their first log in chain order is an update and its block is mined |
| `ConfigScan.ConstantRangeIff` | src/l1/chain_watcher.rs:298-360 | One configuration is right for a range of blocks exactly when each update in it sets what is set already |
| `ConfigEvents.UpdateRoundTrip` | src/l1/config_updates.rs:17-83 | Every update of the four kinds is read back from its event log, laid out as offset, length and 32-byte words |
| `ConfigEvents.ParsesIff` | src/l1/config_updates.rs:17-83 | A log is an update if and only if it has three topics with version zero and a known type in their low 64 bits and data of 96 bytes, or 128 for fees; overhead is the word at 64 and scalar that at 96, gas limit the word at 64, addresses bytes 76 to 96 |
| `ConfigEvents.ConfigByFields` | src/l1/chain_watcher.rs:298-360 | Each field of the configuration at any L1 block is what the last update of its own kind after the start block says, or the initial value if there is none |
| `ConfigScan.ConfigOne` | src/l1/config_updates.rs:17-83 | A range with one update applies to the configuration before what that log says by `ConfigEvents.ParsesIff` |
| `L1Attributes.AttributesRoundTrip` | src/derive/stages/attributes.rs:348-364 | The bedrock decoder gives back the attributes that were encoded |
| `L1Attributes.DecodedIffEncoded` | src/common/attributes_deposited.rs:68-121 | Calldata is decoded if and only if it is the encoding of some attributes; it has the wrong length exactly when it has not 260 bytes, and else the wrong selector exactly when it does not start with that of the call |
| `L1Attributes.DecodeBedrock` | src/common/attributes_deposited.rs:68-121 | The decoder with its cursor rejects a wrong length and selector, and reads each field from its word |
| `L1Attributes.RestartRecoversConfig` | src/l1/chain_watcher.rs:186-213 | The configuration sliced from a block's first transaction on a restart is the one its derivation was given, the block signer excepted |

## Left out

- `decode_batches`: its offsets rest on an RLP library that is not part of this model; channel reads are arbitrary lists of batches, or an undecodable channel.
- Batcher transactions: their frames are parsed elsewhere (src/derive/stages/batcher_transactions.rs); the channel stage takes arbitrary frames, and the batch stage arbitrary channels.
- `get_batcher_transactions`: selection of calldata and blobs by sender and blob index.
- zlib and Keccak: hashes are injective values. The span codec works over any lawful RLP codec; `RlpCodec` gives one, whose readers also accept numbers with leading zeros and lengths in long form that would fit the short one.
- HTTP providers, JSON-RPC, gossip networking, SSZ, telemetry, configuration files, checkpoint sync, locking and async: each driver call is one atomic step, and an error of the engine ends the run.
- Overflow of 64-bit integers, except where the code relies on subtraction that wraps or saturates, or on 16-bit frame counts, which wrap as without overflow checks; the 32-bit sum of frame lengths in `total_size`.
- `BatchQueue.Status`: a start epoch below zero, which a release build wraps to a number near 2^64, is modelled by the result of the header checks (`BatchQueue.WrappedStatus`) and not by 64-bit arithmetic; `BatchQueue.WrappedIsDropped` says what it assumes of block numbers. A build with overflow checks panics on such a span.
- Slicing beyond the end of a span batch panics in the source; the model's decoder answers None for it as for a decoding error.
- The uvarint decoder accepts numbers of any length; the limit to 64 bits and the rejection of non-minimal forms are not modelled.
- `UserDeposited`: the fields of a deposit other than block number and log index are one opaque value, and malformed deposit logs, on which the watcher panics, do not occur.
- The watcher's L1 is fixed during a run of `ChainWatcher.Run`; a reported reorg restarts the watcher in the driver, which `NodeModel` models as a new L1 chain.
- `L1Info.finalized`, set from a comparison of the current with the finalized block, is not used by the derivation and not part of this model.
- Ecotone calldata (`try_from_ecotone`), the bytes of the Ecotone upgrade transactions, and the hard-coded chain configurations.
- Independence of the derived chain from driver scheduling does not hold, since each pull reads one batcher transaction; no claim is made.
- `new` of `State` in src/derive/state.rs:35-53 fills the L2 cache over RPC; the model starts from any cache that agrees with the chain.
- NodeModel.Fair: hypotheses on L1, span alignment and the engine; see the findings above for what fails without them.
