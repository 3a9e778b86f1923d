/**
 How a run ends, starts again and forgets: blocks the engine refuses, L1 reorgs, and the pruning
 of the caches (src/driver/mod.rs, src/derive/state.rs).
 */
module Restarts {
  import opened Base
  import opened Types
  import opened DerivationState
  import opened BatchQueue
  import opened BatchSafety
  import opened Attributes
  import opened BlockTree
  import opened ForkChoice
  import opened ForkChoiceSafety
  import opened NodeModel
  import opened NodeSafety
  import opened NodeTheorems
  import opened ChannelBank

  // ------------------------------------------------------------------------ how a pull ends

  /** The engine neither has the block that the attributes ask for nor can take the one it builds. */
  predicate Refused(d: Driven, a: PayloadAttributes, hash: Hash) {
    !Present(d, a) && !d.engine.OwnHash(BlockOn(d.heads.safeHead, a, hash))
  }

  /** The safe chain has one block more, which is cached as well. */
  ghost predicate Grown(n: Node, n': Node) {
    && |n'.chain| == |n.chain| + 1 && n'.chain[..|n.chain|] == n.chain
    && var d := Last(n'.chain);
    n'.state.l2Refs == n.state.l2Refs[d.info.number := (d.info, d.epoch)]
  }

  /**
   A pull ends the run exactly when the pipeline aborts or the engine refuses the block of its
   attributes. Otherwise the safe chain grows by one block if there are attributes, and if not
   neither the chain nor the engine changes.
   */
  lemma PullEndsIff(cfg: Config, n: Node, read: ChannelRead, hash: Hash)
    requires Inv(cfg, n) && ValidRead(read) && ReadAligned(cfg, read)
    ensures var outcome, r := NextAttributes(cfg, n.state, n.pipeline, read).1, PullStep(cfg, n, read, hash);
            && (r.None? <==> outcome.PipelineAbort? || (outcome.Attrs? && Refused(n.driven, outcome.attributes, hash)))
            && (r.Some? && outcome.Attrs? ==>
                  Grown(n, r.value) && Last(r.value.chain).transactions == outcome.attributes.transactions)
            && (r.Some? && outcome.NoAttributes? ==> r.value.chain == n.chain && r.value.driven == n.driven)
  {
    hide NextAttributes, Refused, GoodAttributes, Grown;
    var (p, outcome) := NextAttributes(cfg, n.state, n.pipeline, read);
    NextAttributesGood(cfg, n, read);
    if outcome.Attrs? {
      hide AfterPull;
      AttributesEndIff(cfg, n, p, outcome.attributes, hash);
    }
  }

  lemma AttributesEndIff(cfg: Config, n: Node, p: Pipeline, a: PayloadAttributes, hash: Hash)
    requires Inv(cfg, n) && GoodAttributes(cfg, n, p, a)
    ensures var r := AfterPull(cfg, n, p, Attrs(a), hash);
            && (r.None? <==> Refused(n.driven, a, hash))
            && (r.Some? ==>
                  Grown(n, r.value) && Last(r.value.chain).transactions == a.transactions)
  {
    hide StateOk, QueueOk, ChainOk, UnfinalizedOk, AttributesHandled;
    NextSlotIsNext(cfg, n);
    AttributesSettled(n.driven, cfg.blocktime, a, hash);
    if AfterPull(cfg, n, p, Attrs(a), hash).Some? {
      PullAppends(cfg, n, p, a, hash);
    }
  }

  // ------------------------------------------------------------------------------ L1 reorgs

  /** The node as it would be started at the end of its safe chain. */
  function StartedAgain(n: Node): Node
    requires n.chain != []
  {
    n.(base := |n.chain| - 1, futureUnsafe := [],
    pipeline := n.pipeline.(sequenceNumber := Last(n.chain).sequenceNumber),
    driven := n.driven.(engine := n.driven.engine.(requests := [])))
  }

  /** What a reorg leaves alone: the engine, L1 finality, blocks from gossip and the cached L2 blocks. */
  ghost predicate ReorgLeaves(n: Node, n': Node) {
    && n'.driven.engine == n.driven.engine && n'.finalizedL1 == n.finalizedL1 && n'.futureUnsafe == n.futureUnsafe
    && (forall k :: k in n'.state.l2Refs <==> k in n.state.l2Refs || k == n.driven.heads.finalizedHead.number)
    && (forall k :: k in n.state.l2Refs && k != n.driven.heads.finalizedHead.number ==> n'.state.l2Refs[k] == n.state.l2Refs[k])
  }

  /**
   After an L1 reorg the node is one that has just been started at its finalized head on the new
   L1 chain, so that all that holds of fair runs from the start holds from there on. It differs
   only in what a reorg leaves alone, and in the sequence number, which restarts at zero.
   */
  lemma ReorgIsNewStart(cfg: Config, n: Node, events: seq<Event>, l1: seq<L1Info>)
    requires Init(cfg, n) && FairRun(cfg, n, events + [L1Reorg(l1)]) && Run(cfg, n, events + [L1Reorg(l1)]).Some?
    ensures Run(cfg, n, events).Some?
    ensures var before, after := Run(cfg, n, events).value, Run(cfg, n, events + [L1Reorg(l1)]).value;
            && after.chain != [] && Init(cfg, StartedAgain(after))
            && after.l1 == l1 && Last(after.chain).info == before.driven.heads.finalizedHead
            && after.pipeline.sequenceNumber == 0
            && ReorgLeaves(before, after)
  {
    hide Inv, Step;
    LastStep(cfg, n, events, L1Reorg(l1));
    RunKeeps(cfg, n, events);
    ReorgStartsAgain(cfg, Run(cfg, n, events).value, l1);
  }

  lemma ReorgStartsAgain(cfg: Config, n: Node, l1: seq<L1Info>)
    requires Inv(cfg, n) && Fair(cfg, n, L1Reorg(l1))
    ensures Step(cfg, n, L1Reorg(l1)).Some?
    ensures var n' := Step(cfg, n, L1Reorg(l1)).value;
            && n'.chain != [] && Init(cfg, StartedAgain(n'))
            && n'.l1 == l1 && Last(n'.chain).info == n.driven.heads.finalizedHead
            && n'.pipeline.sequenceNumber == 0
            && ReorgLeaves(n, n')
  {
    ReorgKeeps(cfg, n, l1);
    var n' := ReorgStep(cfg, n, l1);
    assert ChainOk(cfg, l1, n'.chain, |n'.chain| - 1);
    var e := n'.driven.engine;
    AncestorTransitive(e.blocks, n.driven.heads.finalizedHead.hash, n.driven.heads.safeHead.hash, n.driven.heads.unsafeHead.hash);
    AncestorTransitive(e.blocks, n.driven.heads.finalizedHead.hash, n.driven.heads.unsafeHead.hash, e.canonical);
  }

  /** Some channel that may come out at the given L1 block or later has its first frame in block o. */
  ghost predicate MayOpen(o: nat, from: nat, timeout: nat) {
    exists p :: PendingOk(p) && !IsTimedOut(p, timeout) && p.lowest == o && p.highest >= from
  }

  /** Two frames of a channel, in two L1 blocks. */
  function TwoFrames(low: nat, high: nat): Pending {
    var first := Frame(0, 0, 0, [], false, low);
    var second := Frame(0, 1, 0, [], true, high);
    Pending(0, [first, second], Some(2), high, low)
  }

  /**
   Where the node starts reading L1, at first and after a reorg: it reads exactly the blocks in
   which a channel that comes out at the safe epoch or later, within its timeout, may have a frame.
   */
  lemma StartSeesWholeChannels(cfg: Config, n: Node, o: nat)
    requires Init(cfg, n)
    ensures o >= n.nextL1 <==> MayOpen(o, n.state.safeEpoch.number, cfg.channelTimeout)
  {
    var e := n.state.safeEpoch.number;
    if o + cfg.channelTimeout >= e {
      var high := if o <= e then e else o;
      var p := TwoFrames(o, high);
      assert p.frames[0].l1InclusionBlock == o && p.frames[1].l1InclusionBlock == high;
      assert PendingOk(p) && !IsTimedOut(p, cfg.channelTimeout);
    }
  }

  // -------------------------------------------------------------------------------- pruning

  /**
   What a delivered L1 block makes the caches forget, in any fair run. Of the L1 blocks and the new
   one, exactly those from a sequencing window before the safe epoch stay. Of the L2 blocks, exactly
   those from the safe head back by the sequencer drift counted in blocks stay, but none at all
   while the chain is shorter than that. What stays is as it was.
   */
  lemma DeliveryForgets(cfg: Config, n: Node, events: seq<Event>)
    requires Init(cfg, n) && FairRun(cfg, n, events + [NewBlock]) && Run(cfg, n, events + [NewBlock]).Some?
    ensures Run(cfg, n, events).Some?
    ensures var before, after := Run(cfg, n, events).value, Run(cfg, n, events + [NewBlock]).value;
            ForgetsL1(cfg, before, after) && ForgetsL2(cfg, before, after)
  {
    hide Inv, Step, ForgetsL1, ForgetsL2;
    LastStep(cfg, n, events, NewBlock);
    RunKeeps(cfg, n, events);
    StepForgets(cfg, Run(cfg, n, events).value);
  }

  ghost predicate ForgetsL1(cfg: Config, n: Node, n': Node) {
    && n'.nextL1 == n.nextL1 + 1 && n'.l1 == n.l1
    && forall m: nat :: m in n'.state.l1Hashes <==>
         (m in n.state.l1Hashes || m == n.nextL1) && n.state.safeEpoch.number <= m + cfg.seqWindowSize
  }

  ghost predicate ForgetsL2(cfg: Config, n: Node, n': Node)
    requires ValidConfig(cfg)
  {
    var head, lookback := n.state.safeHead.number, cfg.maxSeqDrift / cfg.blocktime;
    forall k: nat :: k + cfg.maxSeqDrift < U64_RANGE ==>
      && (k in n'.state.l2Refs <==> k in n.state.l2Refs && lookback <= head <= k + lookback)
      && (k in n'.state.l2Refs ==> n'.state.l2Refs[k] == n.state.l2Refs[k])
  }

  lemma StepForgets(cfg: Config, n: Node)
    requires Inv(cfg, n) && Step(cfg, n, NewBlock).Some?
    ensures ForgetsL1(cfg, n, Step(cfg, n, NewBlock).value) && ForgetsL2(cfg, n, Step(cfg, n, NewBlock).value)
  {
    hide QueueOk, HeadsOk, UnfinalizedOk, ChainOk, RefsAgree;
    DivisionShrinks(cfg.maxSeqDrift, cfg.blocktime);
    assert n.l1[n.nextL1].blockInfo.number == n.nextL1;
  }
}
