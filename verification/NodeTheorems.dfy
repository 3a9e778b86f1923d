/** What the node guarantees over whole runs, L1 reorgs included. */
module NodeTheorems {
  import opened Base
  import opened Types
  import opened SpanBlocks
  import opened DerivationState
  import opened BatchQueue
  import opened BatchSafety
  import opened Attributes
  import opened BlockTree
  import opened ForkChoice
  import opened ForkChoiceSafety
  import opened NodeModel
  import opened NodeSafety

  // -------------------------------------------------------------------------- fork choice

  /**
   In every forkchoice that a fair run sends, finalized is an ancestor of or equal to safe
   and safe of the head; every block built from derived attributes has the safe head of
   that moment as its parent.
   */
  lemma ForkchoiceAlwaysOrdered(cfg: Config, n: Node, events: seq<Event>)
    requires Init(cfg, n) && FairRun(cfg, n, events) && Run(cfg, n, events).Some?
    ensures var e := Run(cfg, n, events).value.driven.engine;
            forall i :: 0 <= i < |e.requests| ==>
              && IsAncestor(e.blocks, e.requests[i].fc.finalized, e.requests[i].fc.safe)
              && IsAncestor(e.blocks, e.requests[i].fc.safe, e.requests[i].fc.head)
              && (e.requests[i].Build? ==> e.requests[i].block.info.parentHash == e.requests[i].fc.safe)
    ensures var h := Run(cfg, n, events).value.driven.heads;
            h.finalizedHead.number <= h.safeHead.number <= h.unsafeHead.number
  {
    RunKeeps(cfg, n, events);
    var n' := Run(cfg, n, events).value;
    var e, h := n'.driven.engine, n'.driven.heads;
    forall i | 0 <= i < |e.requests| ensures RequestOk(e.blocks, e.requests[i]) {
    }
    AncestorFacts(e.blocks, h.safeHead.hash, h.finalizedHead.number);
    AncestorFacts(e.blocks, h.unsafeHead.hash, h.safeHead.number);
  }

  /**
   In every state of a fair run, whatever channel comes next, the forkchoice with which the
   engine is asked to build is ordered and has the safe head as its head, whether or not
   the engine then agrees.
   */
  lemma BuildRequestsOrdered(cfg: Config, n: Node, events: seq<Event>, read: ChannelRead)
    requires Init(cfg, n) && FairRun(cfg, n, events) && Run(cfg, n, events).Some?
    requires ValidRead(read) && ReadAligned(cfg, read)
    ensures var now := Run(cfg, n, events).value;
            && Keyed(cfg, now.pipeline.queue.batches)
            && var outcome := NextAttributes(cfg, now.state, now.pipeline, read).1;
            outcome.Attrs? ==>
              var heads := BuildHeads(now.driven, cfg.blocktime, outcome.attributes);
              && Ordered(now.driven.engine.blocks, heads.Forkchoice())
              && heads.unsafeHead == heads.safeHead == now.driven.heads.safeHead
  {
    RunKeeps(cfg, n, events);
    BuildRequestOrdered(cfg, Run(cfg, n, events).value, read);
  }

  lemma BuildRequestOrdered(cfg: Config, n: Node, read: ChannelRead)
    requires Inv(cfg, n) && ValidRead(read) && ReadAligned(cfg, read)
    ensures var outcome := NextAttributes(cfg, n.state, n.pipeline, read).1;
            outcome.Attrs? ==>
              var heads := BuildHeads(n.driven, cfg.blocktime, outcome.attributes);
              && Ordered(n.driven.engine.blocks, heads.Forkchoice())
              && heads.unsafeHead == heads.safeHead == n.driven.heads.safeHead
  {
    hide NextAttributes;
    var (p, outcome) := NextAttributes(cfg, n.state, n.pipeline, read);
    NextAttributesGood(cfg, n, read);
    if outcome.Attrs? {
      hide GoodAttributes, BuildHeads, Ordered;
      BuildOfGood(cfg, n, p, outcome.attributes);
    }
  }

  lemma BuildOfGood(cfg: Config, n: Node, p: Pipeline, a: PayloadAttributes)
    requires Inv(cfg, n) && GoodAttributes(cfg, n, p, a)
    ensures var heads := BuildHeads(n.driven, cfg.blocktime, a);
            && Ordered(n.driven.engine.blocks, heads.Forkchoice())
            && heads.unsafeHead == heads.safeHead == n.driven.heads.safeHead
  {
    hide StateOk, QueueOk, ChainOk, UnfinalizedOk, AttributesHandled, BuildHeads, Ordered;
    NextSlotIsNext(cfg, n);
    BuildRequestSafe(n.driven, cfg.blocktime, a, n.driven.heads.safeHead.hash);
  }

  // ------------------------------------------------------------------------------ gossip

  /** Blocks from gossip are kept while they are above the unsafe head by less than 1024. */
  lemma {:induction false} RetainedExact(blocks: seq<L2Block>, synced: nat)
    ensures forall b :: b in Retained(blocks, synced) <==> b in blocks && 1 <= b.info.number - synced <= 1023
    decreases |blocks|
  {
    if blocks != [] {
      RetainedExact(blocks[1..], synced);
    }
  }

  lemma {:induction false} ChildIsFound(blocks: seq<L2Block>, parent: Hash, b: L2Block)
    requires b in blocks && b.info.parentHash == parent
    ensures FindChild(blocks, parent).Some?
    decreases |blocks|
  {
    if blocks[0].info.parentHash != parent {
      ChildIsFound(blocks[1..], parent, b);
    }
  }

  /** Of the stored and arriving blocks on the unsafe head, the engine can take each that is not too far above. */
  ghost predicate CanTake(n: Node, arrivals: seq<L2Block>) {
    var head := n.driven.heads.unsafeHead;
    forall b :: b in n.futureUnsafe + arrivals && b.info.parentHash == head.hash && 1 <= b.info.number - head.number <= 1023 ==>
      n.driven.engine.CanPush(b)
  }

  /** A child of the old unsafe head is the new unsafe and canonical head, and nothing else has moved. */
  ghost predicate Followed(n: Node, n': Node, b: L2Block) {
    && b.info.parentHash == n.driven.heads.unsafeHead.hash
    && n'.driven.heads == n.driven.heads.(unsafeHead := b.info)
    && n'.driven.engine.canonical == b.info.hash
    && n'.driven.engine.blocks == n.driven.engine.blocks[b.info.hash := b]
    && n'.driven.engine.requests
       == n.driven.engine.requests
          + [Update(ForkchoiceState(b.info.hash, n.driven.heads.safeHead.hash, n.driven.heads.finalizedHead.hash))]
  }

  /**
   Gossip moves the unsafe head on: when a block right above it, on it, is stored or arrives, and
   the engine accepts what it is handed, some child of it becomes the unsafe and canonical head.
   Without a stored or arriving block on the unsafe head and not too far above, it stays.
   */
  lemma GossipAdvances(n: Node, arrivals: seq<L2Block>)
    ensures var head, n' := n.driven.heads.unsafeHead, UnsafeStep(n, arrivals, ForkchoiceAccepted);
            && ((exists b :: b in n.futureUnsafe + arrivals && b.info.parentHash == head.hash && b.info.number == head.number + 1)
                && CanTake(n, arrivals) ==>
                  exists b :: b in n.futureUnsafe + arrivals && Followed(n, n', b))
            && ((forall b :: b in n.futureUnsafe + arrivals && b.info.parentHash == head.hash ==>
                   !(1 <= b.info.number - head.number <= 1023)) ==> n'.driven == n.driven)
            && (forall b :: b in n'.futureUnsafe <==>
                  b in n.futureUnsafe + arrivals && 1 <= b.info.number - head.number <= 1023)
  {
    var head, all := n.driven.heads.unsafeHead, n.futureUnsafe + arrivals;
    var future := Retained(all, head.number);
    RetainedExact(all, head.number);
    FindChildFinds(future, head.hash);
    if b :| b in all && b.info.parentHash == head.hash && b.info.number == head.number + 1 {
      ChildIsFound(future, head.hash, b);
      var child := FindChild(future, head.hash).value;
      if CanTake(n, arrivals) {
        assert Followed(n, UnsafeStep(n, arrivals, ForkchoiceAccepted), child);
      }
    }
  }

  /** The last step of a run, taken apart. */
  lemma LastStep(cfg: Config, n: Node, events: seq<Event>, e: Event)
    requires ValidConfig(cfg) && FairRun(cfg, n, events + [e]) && Run(cfg, n, events + [e]).Some?
    ensures FairRun(cfg, n, events) && Run(cfg, n, events).Some?
    ensures Fair(cfg, Run(cfg, n, events).value, e)
    ensures Step(cfg, Run(cfg, n, events).value, e) == Run(cfg, n, events + [e])
  {
    assert (events + [e])[..|events|] == events;
  }

  /** The finalized block of n is on the chain of both, with the same blocks below it. */
  ghost predicate FinalizedKept(n: Node, n': Node) {
    && n.chain != []
    && var f := n.driven.heads.finalizedHead.number - n.chain[0].info.number;
    && n.base <= f < |n.chain| && f < |n'.chain| && n'.chain[..f + 1] == n.chain[..f + 1]
  }

  /** What is finalized stays on the safe chain with all below it, whatever happens next. */
  lemma FinalizedStaysOnChain(cfg: Config, n: Node, events: seq<Event>, e: Event)
    requires Init(cfg, n) && FairRun(cfg, n, events + [e]) && Run(cfg, n, events + [e]).Some?
    ensures Run(cfg, n, events).Some?
    ensures FinalizedKept(Run(cfg, n, events).value, Run(cfg, n, events + [e]).value)
  {
    LastStep(cfg, n, events, e);
    RunKeeps(cfg, n, events);
    StepKeepsFinalized(cfg, Run(cfg, n, events).value, e);
  }

  lemma StepKeepsFinalized(cfg: Config, n: Node, e: Event)
    requires Inv(cfg, n) && Fair(cfg, n, e) && Step(cfg, n, e).Some?
    ensures FinalizedKept(n, Step(cfg, n, e).value)
    ensures var n' := Step(cfg, n, e).value; n'.chain[0] == n.chain[0] && n'.base == n.base
  {
    hide NextAttributes, AttributesHandled, StateOk, QueueOk, UnfinalizedOk, HeadsOrdered, RequestsOk, Fair;
    if e.Pull? {
      var (p, outcome) := NextAttributes(cfg, n.state, n.pipeline, e.read);
      assert AfterPull(cfg, n, p, outcome, e.hash) == Step(cfg, n, e);
    }
  }

  /** A chain that keeps the finalized block of another keeps what both have below it. */
  lemma KeepsStart(start: seq<Derived>, before: seq<Derived>, after: seq<Derived>, k: nat, f: nat)
    requires k <= f < |before| && f < |after| && before[..k + 1] == start && after[..f + 1] == before[..f + 1]
    ensures after[..k + 1] == start
  {
    assert after[..k + 1] == after[..f + 1][..k + 1];
    assert before[..k + 1] == before[..f + 1][..k + 1];
  }

  lemma StartIsChain(cfg: Config, n: Node)
    requires Init(cfg, n)
    ensures |n.chain| > n.base && n.chain[..n.base + 1] == n.chain
  {
  }

  lemma {:induction false} RunKeepsStart(cfg: Config, n: Node, events: seq<Event>)
    requires Init(cfg, n) && FairRun(cfg, n, events) && Run(cfg, n, events).Some?
    ensures var n' := Run(cfg, n, events).value;
            && n'.base == n.base && |n'.chain| > n.base && n'.chain[..n.base + 1] == n.chain
    decreases |events|
  {
    hide Step, Inv, Init, Fair;
    if events == [] {
      StartIsChain(cfg, n);
    } else {
      var init := events[..|events| - 1];
      RunKeepsStart(cfg, n, init);
      RunKeeps(cfg, n, init);
      var before := Run(cfg, n, init).value;
      StepKeepsFinalized(cfg, before, events[|events| - 1]);
      KeepsStart(n.chain, before.chain, Run(cfg, n, events).value.chain, n.base,
                 before.driven.heads.finalizedHead.number - before.chain[0].info.number);
    }
  }

  // -------------------------------------------------------------------------- derivation

  /**
   Whatever a fair run has done and whatever channel comes next, the attributes that the
   pipeline yields are for the slot right after the safe head, with an L1 origin that is
   on the L1 chain, not before the safe epoch and not younger than the block.
   */
  lemma DerivedAttributesFollow(cfg: Config, n: Node, events: seq<Event>, read: ChannelRead)
    requires Init(cfg, n) && FairRun(cfg, n, events) && Run(cfg, n, events).Some?
    requires ValidRead(read) && ReadAligned(cfg, read)
    ensures var now := Run(cfg, n, events).value;
            && Keyed(cfg, now.pipeline.queue.batches)
            && var outcome := NextAttributes(cfg, now.state, now.pipeline, read).1;
            outcome.Attrs? ==>
              && outcome.attributes.timestamp == now.driven.heads.safeHead.timestamp + cfg.blocktime
              && now.driven.heads.safeEpoch.number <= outcome.attributes.epoch.number < |now.l1|
              && outcome.attributes.epoch == EpochOf(now.l1[outcome.attributes.epoch.number])
              && outcome.attributes.epoch.timestamp <= outcome.attributes.timestamp
  {
    RunKeeps(cfg, n, events);
    NextAttributesGood(cfg, Run(cfg, n, events).value, read);
  }

  /** The safe chain stays on schedule, one block a slot, each on its parent. */
  lemma SafeChainOnSchedule(cfg: Config, n: Node, events: seq<Event>, i: nat)
    requires Init(cfg, n) && FairRun(cfg, n, events) && Run(cfg, n, events).Some?
    requires 0 < i < |Run(cfg, n, events).value.chain|
    ensures var chain := Run(cfg, n, events).value.chain;
            && chain[i].info.parentHash == chain[i - 1].info.hash
            && chain[i].info.timestamp == chain[i - 1].info.timestamp + cfg.blocktime
            && chain[i].epoch.number >= chain[i - 1].epoch.number
            && chain[i].epoch.timestamp <= chain[i].info.timestamp
  {
    RunKeeps(cfg, n, events);
    var n' := Run(cfg, n, events).value;
    assert Succeeds(n'.chain[i - 1], n'.chain[i]);
    assert Placed(cfg, n'.l1, n'.chain[i - 1]) && Placed(cfg, n'.l1, n'.chain[i]);
    StepTimes(cfg.blocktime, n'.chain[i].info.number - cfg.genesisNumber);
  }

  /** The batches that a pull looks at: those stored, and those that arrive with it. */
  ghost function Candidates(cfg: Config, n: Node, read: ChannelRead): map<nat, Batch> {
    if read.Decoded? then Insert(cfg, n.pipeline.queue.batches, read.batches) else n.pipeline.queue.batches
  }

  lemma CandidatesKeyed(cfg: Config, n: Node, read: ChannelRead)
    requires Inv(cfg, n) && ValidRead(read)
    ensures Keyed(cfg, Candidates(cfg, n, read))
  {
    if read.Decoded? {
      InsertKeeps(cfg, n.pipeline.queue.batches, read.batches);
    }
  }

  lemma WindowResolvesHash(s: StateView, l1: seq<L1Info>, lo: nat, next: nat, e: nat)
    requires Window(s, l1, lo, next)
    ensures lo <= e < next ==> s.L1InfoByHash(l1[e].blockInfo.hash) == Some(l1[e])
  {
    if lo <= e < next {
      assert Cached(s, l1, e);
    }
  }

  // ------------------------------------------------------------------------------ caches

  /**
   In every fair run, what the span check looks up at a scheduled time up to the safe head
   is the safe chain's block of that time with its epoch, if it is cached at all. Entries
   that a reorg left above the safe head are never the answer.
   */
  lemma LookupsAgreeWithChain(cfg: Config, n: Node, events: seq<Event>, block: BlockInfo)
    requires Init(cfg, n) && FairRun(cfg, n, events) && Run(cfg, n, events).Some?
    requires Regular(cfg, block) && block.timestamp <= Run(cfg, n, events).value.state.safeHead.timestamp
    ensures var n' := Run(cfg, n, events).value;
            var found := n'.state.L2InfoByTimestamp(cfg, block.timestamp);
            found.Some? ==>
              exists d :: d in n'.chain && d.info.timestamp == block.timestamp && found.value == (d.info, d.epoch)
  {
    RunKeeps(cfg, n, events);
    LookupAgrees(cfg, Run(cfg, n, events).value, block);
  }

  lemma LookupAgrees(cfg: Config, n: Node, block: BlockInfo)
    requires Inv(cfg, n) && Regular(cfg, block) && block.timestamp <= n.state.safeHead.timestamp
    ensures var found := n.state.L2InfoByTimestamp(cfg, block.timestamp);
            found.Some? ==>
              exists d :: d in n.chain && d.info.timestamp == block.timestamp && found.value == (d.info, d.epoch)
  {
    LookupRegular(cfg, n.state, block);
    assert Placed(cfg, n.l1, Last(n.chain));
    MultiplesOrdered(block.number - cfg.genesisNumber, n.state.safeHead.number - cfg.genesisNumber, cfg.blocktime);
    if block.number in n.state.l2Refs {
      var d := At(n.chain, block.number);
      assert Placed(cfg, n.l1, d) && d in n.chain;
      ChainNumbers(cfg, n.l1, n.chain, n.base, block.number - n.chain[0].info.number);
    }
  }

  /** The block before a span that may extend the safe chain is one of these times. */
  lemma SpanLooksBelowSafeHead(cfg: Config, s: StateView, b: SpanBatch, i: nat)
    requires ValidConfig(cfg) && ValidSpan(b) && AlignedSpan(cfg, b) && Regular(cfg, s.safeHead)
    requires StartTimestamp(cfg, b) <= NextTimestamp(cfg, s)
    requires i <= b.blockCount && StartTimestamp(cfg, b) + i * cfg.blocktime <= NextTimestamp(cfg, s)
    ensures var t := SubWrap(StartTimestamp(cfg, b) + i * cfg.blocktime, cfg.blocktime);
            && t <= s.safeHead.timestamp
            && exists block :: Regular(cfg, block) && block.timestamp == t
  {
    var k := b.relTimestamp / cfg.blocktime;
    assert b.relTimestamp == k * cfg.blocktime;
    var t := SubWrap(StartTimestamp(cfg, b) + i * cfg.blocktime, cfg.blocktime);
    SlotsAdd(k, i, cfg.blocktime);
    if k == 0 {
      assert false;
    }
    StepTimes(cfg.blocktime, k + i);
    var block := BlockInfo(s.safeHead.hash, cfg.genesisNumber + (k + i - 1), s.safeHead.hash, t);
    assert block.timestamp == cfg.genesisTime + (block.number - cfg.genesisNumber) * cfg.blocktime;
    assert Regular(cfg, block);
  }

  lemma SlotsAdd(k: nat, i: nat, d: nat)
    ensures k * d + i * d == (k + i) * d
  {
  }

  /**
   In every fair run the L1 caches hold exactly the blocks lo..nextL1 of the L1 chain, a range
   that ends at the current epoch number, and the lookup of an epoch by number answers for
   those and no others.
   */
  lemma L1WindowExact(cfg: Config, n: Node, events: seq<Event>, number: nat)
    requires Init(cfg, n) && FairRun(cfg, n, events) && Run(cfg, n, events).Some?
    ensures var n' := Run(cfg, n, events).value;
            && n'.nextL1 <= |n'.l1| && n'.lo <= n'.driven.heads.safeEpoch.number
            && (n'.state.l1Hashes != map[] ==> n'.nextL1 == n'.state.currentEpochNum + 1)
            && (n'.state.currentEpochNum != 0 ==> n'.nextL1 == n'.state.currentEpochNum + 1)
            && (number in n'.state.l1Hashes <==> n'.lo <= number < n'.nextL1)
            && n'.state.EpochByNumber(number)
               == (if n'.lo <= number < n'.nextL1 then Some(EpochOf(n'.l1[number])) else None)
            && (forall h :: h in n'.state.l1Info <==> HashOfBlock(n'.l1, n'.lo, n'.nextL1, h))
  {
    RunKeeps(cfg, n, events);
    WindowExact(cfg, Run(cfg, n, events).value, number);
  }

  lemma WindowExact(cfg: Config, n: Node, number: nat)
    requires Inv(cfg, n)
    ensures n.state.l1Hashes != map[] ==> n.nextL1 == n.state.currentEpochNum + 1
    ensures number in n.state.l1Hashes <==> n.lo <= number < n.nextL1
    ensures n.state.EpochByNumber(number) == if n.lo <= number < n.nextL1 then Some(EpochOf(n.l1[number])) else None
    ensures forall h :: h in n.state.l1Info <==> HashOfBlock(n.l1, n.lo, n.nextL1, h)
  {
    EpochByNumberExact(n.state, n.l1, n.lo, n.nextL1, number);
    forall h | HashOfBlock(n.l1, n.lo, n.nextL1, h) ensures h in n.state.l1Info {
      var i :| n.lo <= i < n.nextL1 && n.l1[i].blockInfo.hash == h;
      assert Cached(n.state, n.l1, i);
    }
    if n.state.l1Hashes != map[] {
      var k :| k in n.state.l1Hashes;
      assert n.lo <= k < n.nextL1;
    }
  }

  /**
   In every fair run an empty block is forced only once more than a sequencing window of L1
   blocks has been delivered after the origin it gets, and it is attributed to the last of them.
   */
  lemma ForcedAfterWindow(cfg: Config, n: Node, events: seq<Event>)
    requires Init(cfg, n) && FairRun(cfg, n, events) && Run(cfg, n, events).Some?
    ensures var now := Run(cfg, n, events).value;
            ForcedInput(cfg, now.state).Some? ==>
              var input := ForcedInput(cfg, now.state).value;
              && input.epoch + cfg.seqWindowSize < now.nextL1 - 1 == input.l1InclusionBlock
              && input.epoch in {now.driven.heads.safeEpoch.number, now.driven.heads.safeEpoch.number + 1}
              && input.transactions == []
  {
    RunKeeps(cfg, n, events);
    ForcedInWindow(cfg, Run(cfg, n, events).value);
  }

  lemma ForcedInWindow(cfg: Config, n: Node)
    requires Inv(cfg, n)
    ensures ForcedInput(cfg, n.state).Some? ==>
              var input := ForcedInput(cfg, n.state).value;
              && input.epoch + cfg.seqWindowSize < n.nextL1 - 1 == input.l1InclusionBlock
              && input.epoch in {n.driven.heads.safeEpoch.number, n.driven.heads.safeEpoch.number + 1}
              && input.transactions == []
  {
    EpochByNumberExact(n.state, n.l1, n.lo, n.nextL1, n.state.safeEpoch.number + 1);
  }

  /**
   Once a forced empty block is due, a span that is included in the current L1 block or later
   is accepted only when it starts right after the safe head and skips the next L1 block.
   */
  lemma ForcedUnlessSpanJumps(cfg: Config, n: Node, b: SpanBatch)
    requires Inv(cfg, n) && ForcedInput(cfg, n.state).Some?
    requires ValidSpan(b) && AlignedSpan(cfg, b) && b.l1InclusionBlock >= n.state.currentEpochNum
    ensures SpanStatus(cfg, n.state, b) == Accept ==>
              StartEpochNum(b) > n.state.safeEpoch.number + 1 && JumpingSpan(cfg, n.state, Span(b), StartEpochNum(b))
  {
    if SpanStatus(cfg, n.state, b) == Accept {
      BlocksPartitionSpan(cfg, b);
      AcceptedBlock(cfg, n.state, n.l1, n.lo, n.nextL1, b, 0);
      EpochByNumberExact(n.state, n.l1, n.lo, n.nextL1, n.state.safeEpoch.number + 1);
      if StartTimestamp(cfg, b) < NextTimestamp(cfg, n.state) {
        OverlapStartsInChain(cfg, n, b);
      }
    }
  }

  /** A block at or below the safe head that is cached has no later origin than the safe head. */
  lemma CachedOriginBelow(cfg: Config, n: Node, number: nat)
    requires Inv(cfg, n) && number in n.state.l2Refs && number <= n.state.safeHead.number
    ensures n.state.l2Refs[number].1.number <= n.state.safeEpoch.number
  {
    ChainNumbers(cfg, n.l1, n.chain, n.base, |n.chain| - 1);
    assert OnChain(n.chain, number);
    EpochsOrdered(cfg, n.l1, n.chain, n.base, number - n.chain[0].info.number, |n.chain| - 1);
  }

  lemma FirstInput(cfg: Config, b: SpanBatch)
    requires ValidSpan(b)
    ensures InputAt(cfg, b, 0).timestamp == StartTimestamp(cfg, b)
  {
  }

  /** A span that starts before the next slot starts in the slot of some block up to the safe head. */
  lemma StartOnSchedule(cfg: Config, head: BlockInfo, b: SpanBatch) returns (block: BlockInfo)
    requires ValidConfig(cfg) && AlignedSpan(cfg, b) && Regular(cfg, head)
    requires StartTimestamp(cfg, b) < head.timestamp + cfg.blocktime
    ensures Regular(cfg, block) && block.number <= head.number && block.timestamp == StartTimestamp(cfg, b)
  {
    var k, m := b.relTimestamp / cfg.blocktime, head.number - cfg.genesisNumber;
    StepTimes(cfg.blocktime, m + 1);
    MultiplesOrdered(k, m + 1, cfg.blocktime);
    block := BlockInfo(head.hash, cfg.genesisNumber + k, head.hash, StartTimestamp(cfg, b));
  }

  /** A span that overlaps the safe chain starts with the origin of a block of it. */
  lemma OverlapStartsInChain(cfg: Config, n: Node, b: SpanBatch)
    requires Inv(cfg, n) && ValidSpan(b) && AlignedSpan(cfg, b)
    requires StartTimestamp(cfg, b) < NextTimestamp(cfg, n.state) && SpanOverlapAt(cfg, n.state, b, 0) == Accept
    ensures InputAt(cfg, b, 0).epoch <= n.state.safeEpoch.number
  {
    assert ValidConfig(cfg) && Regular(cfg, n.state.safeHead);
    hide Inv, InputAt, Regular, AlignedSpan;
    FirstInput(cfg, b);
    var block := StartOnSchedule(cfg, n.state.safeHead, b);
    LookupRegular(cfg, n.state, block);
    CachedOriginBelow(cfg, n, block.number);
  }
}
