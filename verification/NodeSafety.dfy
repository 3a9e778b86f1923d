/** The invariant of the node, and that every step of a fair run keeps it. */
module NodeSafety {
  import opened Base
  import opened Types
  import opened SpanBlocks
  import opened DerivationState
  import opened BatchQueue
  import opened BatchSafety
  import opened Attributes
  import opened BlockTree
  import opened ForkChoice
  import opened ForkChoiceSafety
  import opened NodeModel

  function Last(chain: seq<Derived>): Derived
    requires chain != []
  {
    chain[|chain| - 1]
  }

  /** Block d may stand on block p: next number, next slot, an origin that does not go back. */
  ghost predicate Succeeds(p: Derived, d: Derived) {
    && d.info.parentHash == p.info.hash
    && d.info.number == p.info.number + 1
    && p.epoch.number <= d.epoch.number
  }

  /** A block on schedule, not older than its L1 origin, which is on the L1 chain. */
  ghost predicate Placed(cfg: Config, l1: seq<L1Info>, d: Derived) {
    && Regular(cfg, d.info)
    && d.epoch.number < |l1| && d.epoch == EpochOf(l1[d.epoch.number])
    && d.epoch.timestamp <= d.info.timestamp
  }

  ghost predicate ChainOk(cfg: Config, l1: seq<L1Info>, chain: seq<Derived>, base: nat) {
    && base < |chain|
    && (forall i :: 0 <= i < |chain| ==> Placed(cfg, l1, chain[i]))
    && (forall i :: 0 < i < |chain| ==> Succeeds(chain[i - 1], chain[i]))
  }

  /** Cached L2 blocks at or below the end of the chain are the chain's blocks. */
  ghost predicate RefsAgree(refs: map<nat, (BlockInfo, Epoch)>, chain: seq<Derived>)
    requires chain != []
  {
    forall k :: k in refs && k <= Last(chain).info.number ==>
      OnChain(chain, k) && refs[k] == (At(chain, k).info, At(chain, k).epoch)
  }

  predicate OnChain(chain: seq<Derived>, number: nat)
    requires chain != []
  {
    chain[0].info.number <= number < chain[0].info.number + |chain|
  }

  /** The block of the chain with the given number. */
  function At(chain: seq<Derived>, number: nat): Derived
    requires chain != [] && OnChain(chain, number)
  {
    chain[number - chain[0].info.number]
  }

  ghost predicate StateOk(cfg: Config, n: Node)
    requires n.chain != []
  {
    && Anchored(cfg, n.state, n.l1, n.lo, n.nextL1)
    && n.state.safeHead == Last(n.chain).info && n.state.safeEpoch == Last(n.chain).epoch
    && RefsAgree(n.state.l2Refs, n.chain)
    && CurrentEpochOk(n)
  }

  /** The current epoch number is that of the last L1 block delivered, or zero before the first. */
  ghost predicate CurrentEpochOk(n: Node) {
    && (n.state.currentEpochNum == 0 || n.state.currentEpochNum + 1 == n.nextL1)
    && (n.lo < n.nextL1 ==> n.state.currentEpochNum + 1 == n.nextL1)
  }

  ghost predicate QueueOk(cfg: Config, n: Node)
    requires ValidConfig(cfg) && n.nextL1 <= |n.l1|
  {
    && Keyed(cfg, n.pipeline.queue.batches) && AllAligned(cfg, n.pipeline.queue.batches)
    && Chained(cfg, n.l1, n.nextL1, n.state.safeHead.timestamp, n.state.safeEpoch.number, n.pipeline.queue.pending)
  }

  /** The heads are on the chain, and the engine has the chain. */
  ghost predicate HeadsOk(n: Node)
    requires n.chain != []
  {
    var h := n.driven.heads;
    && HeadsOrdered(n.driven) && RequestsOk(n.driven.engine)
    && h.safeHead == Last(n.chain).info && h.safeEpoch == Last(n.chain).epoch
    && OnChain(n.chain, h.finalizedHead.number)
    && h.finalizedHead == At(n.chain, h.finalizedHead.number).info
    && h.finalizedEpoch == At(n.chain, h.finalizedHead.number).epoch
    && n.base <= h.finalizedHead.number - n.chain[0].info.number
    && (forall i :: 0 <= i < |n.chain| ==> InTree(n.driven.engine.blocks, n.chain[i].info))
  }

  ghost predicate EntryOk(chain: seq<Derived>, base: nat, u: Unfinalized)
    requires chain != []
  {
    && OnChain(chain, u.head.number) && base < u.head.number - chain[0].info.number
    && var d := At(chain, u.head.number);
    && u == Unfinalized(d.info, d.epoch, d.inclusion, d.sequenceNumber)
  }

  ghost predicate UnfinalizedOk(n: Node)
    requires n.chain != []
  {
    && (forall u :: u in n.unfinalized ==> EntryOk(n.chain, n.base, u))
    && Increasing(n.unfinalized)
  }

  ghost predicate Increasing(blocks: seq<Unfinalized>) {
    forall i, j :: 0 <= i < j < |blocks| ==> blocks[i].head.number < blocks[j].head.number
  }

  ghost predicate Inv(cfg: Config, n: Node) {
    && ValidConfig(cfg)
    && ChainOk(cfg, n.l1, n.chain, n.base)
    && StateOk(cfg, n)
    && QueueOk(cfg, n)
    && HeadsOk(n)
    && UnfinalizedOk(n)
  }

  // --------------------------------------------------------------------------- the chain

  lemma {:induction false} ChainNumbers(cfg: Config, l1: seq<L1Info>, chain: seq<Derived>, base: nat, i: nat)
    requires ChainOk(cfg, l1, chain, base) && i < |chain|
    ensures chain[i].info.number == chain[0].info.number + i
  {
    if i > 0 {
      ChainNumbers(cfg, l1, chain, base, i - 1);
      assert Succeeds(chain[i - 1], chain[i]);
    }
  }

  lemma {:induction false} EpochsOrdered(cfg: Config, l1: seq<L1Info>, chain: seq<Derived>, base: nat, i: nat, j: nat)
    requires ChainOk(cfg, l1, chain, base) && i <= j < |chain|
    ensures chain[i].epoch.number <= chain[j].epoch.number
    decreases j
  {
    if i < j {
      EpochsOrdered(cfg, l1, chain, base, i, j - 1);
      assert Succeeds(chain[j - 1], chain[j]);
    }
  }

  /** Earlier blocks of the chain are ancestors of later ones in the engine's tree. */
  lemma {:induction false} ChainAncestors(n: Node, cfg: Config, i: nat, j: nat)
    requires Inv(cfg, n) && i <= j < |n.chain|
    ensures IsAncestor(n.driven.engine.blocks, n.chain[i].info.hash, n.chain[j].info.hash)
    decreases j
  {
    var t := n.driven.engine.blocks;
    assert InTree(t, n.chain[i].info) && InTree(t, n.chain[j].info);
    if i < j {
      ChainAncestors(n, cfg, i, j - 1);
      assert Succeeds(n.chain[j - 1], n.chain[j]) && InTree(t, n.chain[j - 1].info);
      ChildIsDescendant(t, n.chain[j - 1].info.hash, n.chain[j].info.hash);
      AncestorTransitive(t, n.chain[i].info.hash, n.chain[j - 1].info.hash, n.chain[j].info.hash);
    }
  }

  /** Entries on the chain stay so when the chain grows. */
  lemma RefsGrow(cfg: Config, l1: seq<L1Info>, refs: map<nat, (BlockInfo, Epoch)>, chain: seq<Derived>, base: nat, d: Derived)
    requires ChainOk(cfg, l1, chain, base) && RefsAgree(refs, chain) && Succeeds(Last(chain), d)
    ensures RefsAgree(refs[d.info.number := (d.info, d.epoch)], chain + [d])
  {
    ChainNumbers(cfg, l1, chain, base, |chain| - 1);
    var refs', chain' := refs[d.info.number := (d.info, d.epoch)], chain + [d];
    forall k | k in refs' && k <= d.info.number
      ensures OnChain(chain', k) && refs'[k] == (At(chain', k).info, At(chain', k).epoch)
    {
      if k < d.info.number {
        assert k in refs && refs[k] == (At(chain, k).info, At(chain, k).epoch);
        assert At(chain', k) == At(chain, k);
      }
    }
  }

  lemma ChainGrows(cfg: Config, l1: seq<L1Info>, chain: seq<Derived>, base: nat, d: Derived)
    requires ChainOk(cfg, l1, chain, base) && Succeeds(Last(chain), d) && Placed(cfg, l1, d)
    ensures ChainOk(cfg, l1, chain + [d], base)
  {
    var chain' := chain + [d];
    forall i | 0 < i < |chain'| ensures Succeeds(chain'[i - 1], chain'[i]) {
      if i < |chain| {
        assert Succeeds(chain[i - 1], chain[i]);
      }
    }
  }

  /** A chain on schedule has its next slot right where the engine driver looks for it. */
  lemma NextSlotIsNext(cfg: Config, n: Node)
    requires Inv(cfg, n)
    ensures NextSlot(n.driven, cfg.blocktime, n.state.safeHead.timestamp + cfg.blocktime)
  {
    var f, s := n.driven.heads.finalizedHead, n.state.safeHead;
    ChainNumbers(cfg, n.l1, n.chain, n.base, |n.chain| - 1);
    assert Placed(cfg, n.l1, At(n.chain, f.number)) && Placed(cfg, n.l1, Last(n.chain));
    var steps := s.number + 1 - f.number;
    SlotsBetween(f.number - cfg.genesisNumber, s.number + 1 - cfg.genesisNumber, cfg.blocktime);
    StepTimes(cfg.blocktime, s.number + 1 - cfg.genesisNumber);
    DivOfMultiple(steps, cfg.blocktime);
  }

  lemma SlotsBetween(a: nat, b: nat, d: nat)
    requires a <= b
    ensures b * d - a * d == (b - a) * d && b * d - a * d >= 0
  {
  }

  // ------------------------------------------------------------------- steps keep the invariant

  lemma L1ExtendsKeeps(cfg: Config, n: Node, info: L1Info)
    requires Inv(cfg, n) && ValidL1(n.l1 + [info])
    ensures Inv(cfg, n.(l1 := n.l1 + [info]))
  {
    var l1 := n.l1 + [info];
    WindowExtends(n.state, n.l1, l1, n.lo, n.nextL1);
    ChainedExtends(cfg, n.l1, n.nextL1, l1, n.nextL1, n.state.safeHead.timestamp, n.state.safeEpoch.number,
                   n.pipeline.queue.pending);
    forall i | 0 <= i < |n.chain| ensures Placed(cfg, l1, n.chain[i]) {
      assert Placed(cfg, n.l1, n.chain[i]);
    }
  }

  lemma NewBlockKeeps(cfg: Config, n: Node)
    requires Inv(cfg, n) && n.nextL1 < |n.l1|
    ensures Inv(cfg, NewBlockStep(cfg, n))
  {
    WindowAdvances(n.state, cfg, n.l1, n.lo, n.nextL1);
    ChainedExtends(cfg, n.l1, n.nextL1, n.l1, n.nextL1 + 1, n.state.safeHead.timestamp, n.state.safeEpoch.number,
                   n.pipeline.queue.pending);
    var refs := NewBlockStep(cfg, n).state.l2Refs;
    assert forall k :: k in refs ==> k in n.state.l2Refs && refs[k] == n.state.l2Refs[k];
  }

  lemma SyncKeeps(cfg: Config, n: Node)
    requires Inv(cfg, n)
    ensures Inv(cfg, SyncStep(n))
  {
    ChainNumbers(cfg, n.l1, n.chain, n.base, |n.chain| - 1);
    WindowReadsL1Only(n.state, SyncStep(n).state, n.l1, n.lo, n.nextL1);
  }

  lemma UnsafeKeeps(cfg: Config, n: Node, arrivals: seq<L2Block>, answer: GossipAnswer)
    requires Inv(cfg, n) && !answer.ForkchoiceRejected?
    ensures Inv(cfg, UnsafeStep(n, arrivals, answer))
  {
    var future := Retained(n.futureUnsafe + arrivals, n.driven.heads.unsafeHead.number);
    FindChildFinds(future, n.driven.heads.unsafeHead.hash);
    var found := FindChild(future, n.driven.heads.unsafeHead.hash);
    if found.Some? {
      GossipHandledSafe(n.driven, found.value, answer);
      var t, t' := n.driven.engine.blocks, UnsafeStep(n, arrivals, answer).driven.engine.blocks;
      forall i | 0 <= i < |n.chain| ensures InTree(t', n.chain[i].info) {
        assert InTree(t, n.chain[i].info);
      }
    }
  }

  lemma {:induction false} FindChildFinds(blocks: seq<L2Block>, parent: Hash)
    ensures FindChild(blocks, parent).Some? ==>
              FindChild(blocks, parent).value in blocks && FindChild(blocks, parent).value.info.parentHash == parent
  {
    if blocks != [] && blocks[0].info.parentHash != parent {
      FindChildFinds(blocks[1..], parent);
    }
  }

  /** What finalizing picks and keeps, as positions of the list. */
  lemma {:induction false} LastFinalFinds(blocks: seq<Unfinalized>, finalizedL1: nat)
    ensures LastFinal(blocks, finalizedL1).Some? ==>
              exists i :: 0 <= i < |blocks| && blocks[i] == LastFinal(blocks, finalizedL1).value
                       && CanFinalize(blocks[i], finalizedL1)
                       && forall j :: i < j < |blocks| ==> !CanFinalize(blocks[j], finalizedL1)
    ensures LastFinal(blocks, finalizedL1).None? ==>
              forall j :: 0 <= j < |blocks| ==> !CanFinalize(blocks[j], finalizedL1)
    decreases |blocks|
  {
    if blocks != [] && !CanFinalize(blocks[|blocks| - 1], finalizedL1) {
      LastFinalFinds(blocks[..|blocks| - 1], finalizedL1);
    }
  }

  /** The retained entries are those of the list still above finality, in the same order. */
  lemma {:induction false} StillUnfinalizedKeeps(blocks: seq<Unfinalized>, finalizedL1: nat)
    requires Increasing(blocks)
    ensures Increasing(StillUnfinalized(blocks, finalizedL1))
    ensures forall u :: u in StillUnfinalized(blocks, finalizedL1) <==> u in blocks && u.inclusion > finalizedL1
    decreases |blocks|
  {
    if blocks != [] {
      var init, last := blocks[..|blocks| - 1], blocks[|blocks| - 1];
      StillUnfinalizedKeeps(init, finalizedL1);
      var kept := StillUnfinalized(init, finalizedL1);
      forall u | u in kept ensures u.head.number < last.head.number {
        assert u in init;
      }
      assert forall u :: u in blocks <==> u in init || u == last;
    }
  }

  lemma FinalizeKeeps(cfg: Config, n: Node)
    requires Inv(cfg, n)
    ensures Inv(cfg, FinalizeStep(n))
  {
    FinalizeHeads(cfg, n);
    StillUnfinalizedKeeps(n.unfinalized, n.finalizedL1);
    var n' := FinalizeStep(n);
    assert n'.state == n.state && n'.chain == n.chain && n'.pipeline == n.pipeline;
  }

  lemma FinalizeHeads(cfg: Config, n: Node)
    requires Inv(cfg, n)
    ensures HeadsOk(FinalizeStep(n))
  {
    LastFinalFinds(n.unfinalized, n.finalizedL1);
    var found := LastFinal(n.unfinalized, n.finalizedL1);
    if found.Some? {
      assert EntryOk(n.chain, n.base, found.value);
      var i := found.value.head.number - n.chain[0].info.number;
      assert InTree(n.driven.engine.blocks, n.chain[i].info);
      ChainAncestors(n, cfg, i, |n.chain| - 1);
    }
  }

  lemma ChainUpToKeeps(cfg: Config, l1: seq<L1Info>, chain: seq<Derived>, base: nat, i: nat)
    requires ChainOk(cfg, l1, chain, base) && base <= i < |chain|
    ensures ChainOk(cfg, l1, chain[..i + 1], base) && Last(chain[..i + 1]) == chain[i]
  {
    var prefix := chain[..i + 1];
    forall k | 0 < k < |prefix| ensures Succeeds(prefix[k - 1], prefix[k]) {
      assert Succeeds(chain[k - 1], chain[k]);
    }
  }

  lemma ReorgKeeps(cfg: Config, n: Node, l1: seq<L1Info>)
    requires Inv(cfg, n) && Fair(cfg, n, L1Reorg(l1))
    ensures Inv(cfg, ReorgStep(cfg, n, l1))
  {
    var h := n.driven.heads;
    var f := h.finalizedHead.number - n.chain[0].info.number;
    var last := h.finalizedEpoch.number + 1;
    var n' := ReorgStep(cfg, n, l1);
    assert n'.chain == n.chain[..f + 1];
    ChainNumbers(cfg, n.l1, n.chain, n.base, f);
    forall i | 0 <= i < |n'.chain| ensures Placed(cfg, l1, n'.chain[i]) {
      assert Placed(cfg, n.l1, n.chain[i]);
      EpochsOrdered(cfg, n.l1, n.chain, n.base, i, f);
      var e := n.chain[i].epoch.number;
      assert l1[e] == l1[..last][e] == n.l1[..last][e] == n.l1[e];
    }
    ChainUpToKeeps(cfg, n.l1, n.chain, n.base, f);
    assert Placed(cfg, l1, Last(n'.chain));
    ReorgRefs(cfg, n, l1);
    var t, c := n.driven.engine.blocks, n.driven.engine.canonical;
    AncestorTransitive(t, h.finalizedHead.hash, h.safeHead.hash, h.unsafeHead.hash);
    AncestorTransitive(t, h.finalizedHead.hash, h.unsafeHead.hash, c);
  }

  lemma ReorgRefs(cfg: Config, n: Node, l1: seq<L1Info>)
    requires Inv(cfg, n)
    ensures RefsAgree(ReorgStep(cfg, n, l1).state.l2Refs, ReorgStep(cfg, n, l1).chain)
  {
    var h := n.driven.heads;
    var n' := ReorgStep(cfg, n, l1);
    var f := h.finalizedHead.number - n.chain[0].info.number;
    ChainNumbers(cfg, n.l1, n.chain, n.base, f);
    ChainNumbers(cfg, n.l1, n.chain, n.base, |n.chain| - 1);
    forall k | k in n'.state.l2Refs && k <= Last(n'.chain).info.number
      ensures OnChain(n'.chain, k) && n'.state.l2Refs[k] == (At(n'.chain, k).info, At(n'.chain, k).epoch)
    {
      if k != h.finalizedHead.number {
        assert k in n.state.l2Refs;
        assert n.state.l2Refs[k] == (At(n.chain, k).info, At(n.chain, k).epoch);
      }
    }
  }

  // ------------------------------------------------------------------------ pulling a block

  /** What a pull that yields attributes yields: the next slot, and an origin it resolves. */
  ghost predicate GoodAttributes(cfg: Config, n: Node, p: Pipeline, a: PayloadAttributes)
    requires ValidConfig(cfg) && n.nextL1 <= |n.l1|
  {
    && a.timestamp == n.state.safeHead.timestamp + cfg.blocktime
    && n.state.safeEpoch.number <= a.epoch.number < n.nextL1 && a.epoch == EpochOf(n.l1[a.epoch.number])
    && a.epoch.timestamp <= a.timestamp
    && a.seqNumber == NextSequence(n.pipeline.sequenceNumber, n.pipeline.epochHash, a.epoch.hash)
    && p.sequenceNumber == a.seqNumber && p.epochHash == a.epoch.hash
    && DepositsIn(a.transactions) == (if a.seqNumber == 0 then n.l1[a.epoch.number].userDeposits else [])
    && Keyed(cfg, p.queue.batches) && AllAligned(cfg, p.queue.batches)
    && Chained(cfg, n.l1, n.nextL1, a.timestamp, a.epoch.number, p.queue.pending)
  }

  lemma NextAttributesGood(cfg: Config, n: Node, read: ChannelRead)
    requires Inv(cfg, n) && ValidRead(read) && ReadAligned(cfg, read)
    ensures var (p, outcome) := NextAttributes(cfg, n.state, n.pipeline, read);
            && (outcome.Attrs? ==> GoodAttributes(cfg, n, p, outcome.attributes))
            && (outcome.NoAttributes? ==>
                  && QueueOk(cfg, n.(pipeline := p))
                  && p.sequenceNumber == n.pipeline.sequenceNumber && p.epochHash == n.pipeline.epochHash)
  {
    TryNextSafe(cfg, n.state, n.l1, n.lo, n.nextL1, n.pipeline.queue, read);
    var outcome := TryNext(cfg, n.state, n.pipeline.queue, read).1;
    if outcome.Emit? {
      var input := outcome.input;
      OriginResolvedIff(cfg, n.state, n.l1, n.lo, n.nextL1, input);
      if input.epoch < n.nextL1 {
        var info := n.l1[input.epoch];
        assert Cached(n.state, n.l1, input.epoch);
        DepositsOfBlock(cfg, n.state, input, EpochOf(info), info,
                        NextSequence(n.pipeline.sequenceNumber, n.pipeline.epochHash, info.blockInfo.hash));
      }
    }
  }

  lemma PullKeeps(cfg: Config, n: Node, read: ChannelRead, hash: Hash)
    requires Inv(cfg, n) && ValidRead(read) && ReadAligned(cfg, read)
    requires PullStep(cfg, n, read, hash).Some?
    ensures Inv(cfg, PullStep(cfg, n, read, hash).value)
  {
    var (p, outcome) := NextAttributes(cfg, n.state, n.pipeline, read);
    NextAttributesGood(cfg, n, read);
    AfterPullKeeps(cfg, n, p, outcome, hash);
  }

  lemma AfterPullKeeps(cfg: Config, n: Node, p: Pipeline, outcome: PipelineOutcome, hash: Hash)
    requires Inv(cfg, n) && AfterPull(cfg, n, p, outcome, hash).Some?
    requires outcome.Attrs? ==> GoodAttributes(cfg, n, p, outcome.attributes)
    requires outcome.NoAttributes? ==> QueueOk(cfg, n.(pipeline := p))
    ensures Inv(cfg, AfterPull(cfg, n, p, outcome, hash).value)
  {
    if outcome.Attrs? {
      hide StateOk, QueueOk, ChainOk, UnfinalizedOk, AttributesHandled;
      var a := outcome.attributes;
      NextSlotIsNext(cfg, n);
      AttributesHandledSafe(n.driven, cfg.blocktime, a, hash);
      PushedKeeps(cfg, n, p, a, AttributesHandled(n.driven, cfg.blocktime, a, hash).value);
    }
  }

  lemma PushedKeeps(cfg: Config, n: Node, p: Pipeline, a: PayloadAttributes, driven: Driven)
    requires Inv(cfg, n) && GoodAttributes(cfg, n, p, a)
    requires HeadsOrdered(driven) && RequestsOk(driven.engine) && SafeAdvanced(n.driven, driven, a)
    ensures Inv(cfg, Advanced(n, p, a, driven))
  {
    var n' := Advanced(n, p, a, driven);
    AdvancedPlaced(cfg, n, p, a, driven);
    ChainGrows(cfg, n.l1, n.chain, n.base, Last(n'.chain));
    AdvancedState(cfg, n, p, a, driven);
    AdvancedHeads(cfg, n, p, a, driven);
    AdvancedUnfinalized(cfg, n, p, a, driven);
  }

  lemma AdvancedPlaced(cfg: Config, n: Node, p: Pipeline, a: PayloadAttributes, driven: Driven)
    requires Inv(cfg, n) && GoodAttributes(cfg, n, p, a) && SafeAdvanced(n.driven, driven, a)
    ensures var d := Last(Advanced(n, p, a, driven).chain);
            Succeeds(Last(n.chain), d) && Placed(cfg, n.l1, d)
  {
    var d := Last(Advanced(n, p, a, driven).chain);
    assert Placed(cfg, n.l1, Last(n.chain));
    StepTimes(cfg.blocktime, d.info.number - cfg.genesisNumber);
  }

  lemma AdvancedState(cfg: Config, n: Node, p: Pipeline, a: PayloadAttributes, driven: Driven)
    requires Inv(cfg, n) && GoodAttributes(cfg, n, p, a) && SafeAdvanced(n.driven, driven, a)
    ensures StateOk(cfg, Advanced(n, p, a, driven))
  {
    var n' := Advanced(n, p, a, driven);
    AdvancedPlaced(cfg, n, p, a, driven);
    RefsGrow(cfg, n.l1, n.state.l2Refs, n.chain, n.base, Last(n'.chain));
    WindowReadsL1Only(n.state, n'.state, n.l1, n.lo, n.nextL1);
  }

  lemma AdvancedHeads(cfg: Config, n: Node, p: Pipeline, a: PayloadAttributes, driven: Driven)
    requires Inv(cfg, n)
    requires HeadsOrdered(driven) && RequestsOk(driven.engine) && SafeAdvanced(n.driven, driven, a)
    ensures HeadsOk(Advanced(n, p, a, driven))
  {
    var n' := Advanced(n, p, a, driven);
    assert At(n'.chain, driven.heads.finalizedHead.number) == At(n.chain, driven.heads.finalizedHead.number);
    forall i | 0 <= i < |n'.chain| ensures InTree(driven.engine.blocks, n'.chain[i].info) {
      if i < |n.chain| {
        assert InTree(n.driven.engine.blocks, n.chain[i].info);
      }
    }
  }

  lemma AdvancedUnfinalized(cfg: Config, n: Node, p: Pipeline, a: PayloadAttributes, driven: Driven)
    requires Inv(cfg, n) && SafeAdvanced(n.driven, driven, a)
    ensures UnfinalizedOk(Advanced(n, p, a, driven))
  {
    hide QueueOk, StateOk, HeadsOrdered, RequestsOk;
    var n' := Advanced(n, p, a, driven);
    ChainNumbers(cfg, n.l1, n.chain, n.base, |n.chain| - 1);
    forall u | u in n'.unfinalized ensures EntryOk(n'.chain, n'.base, u) {
      if u in n.unfinalized {
        assert EntryOk(n.chain, n.base, u);
        assert At(n'.chain, u.head.number) == At(n.chain, u.head.number);
      }
    }
    forall i | 0 <= i < |n.unfinalized| ensures n.unfinalized[i].head.number < driven.heads.safeHead.number {
      assert EntryOk(n.chain, n.base, n.unfinalized[i]);
    }
  }

  /** The chain has a new last block that is what the attributes ask for. */
  ghost predicate Pulled(n: Node, p: Pipeline, a: PayloadAttributes, n': Node) {
    && n.chain != [] && n'.chain != [] && n'.chain == n.chain + [Last(n'.chain)]
    && var d := Last(n'.chain);
    && d == Derived(d.info, a.epoch, a.l1InclusionBlock, a.seqNumber, a.transactions)
    && d.info.number == Last(n.chain).info.number + 1
    && n'.unfinalized == n.unfinalized + [Unfinalized(d.info, a.epoch, a.l1InclusionBlock, a.seqNumber)]
    && n'.base == n.base && n'.l1 == n.l1 && n'.pipeline == p && n'.finalizedL1 == n.finalizedL1
    && n'.driven.heads.finalizedHead == n.driven.heads.finalizedHead
    && n'.driven.heads.finalizedEpoch == n.driven.heads.finalizedEpoch
  }

  lemma PullAppends(cfg: Config, n: Node, p: Pipeline, a: PayloadAttributes, hash: Hash)
    requires Inv(cfg, n) && GoodAttributes(cfg, n, p, a) && AfterPull(cfg, n, p, Attrs(a), hash).Some?
    ensures Pulled(n, p, a, AfterPull(cfg, n, p, Attrs(a), hash).value)
  {
    NextSlotIsNext(cfg, n);
    AttributesHandledSafe(n.driven, cfg.blocktime, a, hash);
  }

  // ------------------------------------------------------------------------------- runs

  /** What the node starts with: a finalized head that the engine and the L1 chain know. */
  ghost predicate Init(cfg: Config, n: Node) {
    && ValidConfig(cfg) && ValidL1(n.l1)
    && ChainOk(cfg, n.l1, n.chain, n.base) && n.base == |n.chain| - 1
    && var head := Last(n.chain);
    && n.nextL1 == n.lo == L1StartBlock(head.epoch.number, cfg.channelTimeout)
    && n.state == StateView(map[], map[], n.state.l2Refs, head.info, head.epoch, 0)
    && RefsAgree(n.state.l2Refs, n.chain)
    && n.pipeline == Pipeline(Queue(map[], []), head.sequenceNumber, head.epoch.hash)
    && n.driven.heads == Heads(head.info, head.info, head.epoch, head.info, head.epoch)
    && var e := n.driven.engine;
    && WellFormed(e.blocks) && e.requests == []
    && (forall i :: 0 <= i < |n.chain| ==> InTree(e.blocks, n.chain[i].info))
    && IsAncestor(e.blocks, head.info.hash, e.canonical)
    && n.unfinalized == [] && n.futureUnsafe == []
  }

  lemma InitInv(cfg: Config, n: Node)
    requires Init(cfg, n)
    ensures Inv(cfg, n)
  {
    ChainNumbers(cfg, n.l1, n.chain, n.base, n.base);
    assert Placed(cfg, n.l1, Last(n.chain));
    assert InTree(n.driven.engine.blocks, Last(n.chain).info);
    assert Window(n.state, n.l1, n.lo, n.nextL1);
  }

  lemma StepKeeps(cfg: Config, n: Node, e: Event)
    requires Inv(cfg, n) && Fair(cfg, n, e) && Step(cfg, n, e).Some?
    ensures Inv(cfg, Step(cfg, n, e).value)
  {
    match e
    case L1Extends(info) => L1ExtendsKeeps(cfg, n, info);
    case NewBlock => NewBlockKeeps(cfg, n);
    case L1Reorg(l1) => ReorgKeeps(cfg, n, l1);
    case FinalityUpdate(number) =>
    case SyncState => SyncKeeps(cfg, n);
    case Pull(read, hash) => PullKeeps(cfg, n, read, hash);
    case AdvanceUnsafe(arrivals, answer) => UnsafeKeeps(cfg, n, arrivals, answer);
    case UpdateFinalized => FinalizeKeeps(cfg, n);
  }

  /** Every state of every fair run satisfies the invariant. */
  lemma {:induction false} RunKeeps(cfg: Config, n: Node, events: seq<Event>)
    requires Init(cfg, n) && FairRun(cfg, n, events) && Run(cfg, n, events).Some?
    ensures Inv(cfg, Run(cfg, n, events).value)
    decreases |events|
  {
    if events == [] {
      InitInv(cfg, n);
    } else {
      RunKeeps(cfg, n, events[..|events| - 1]);
      StepKeeps(cfg, Run(cfg, n, events[..|events| - 1]).value, events[|events| - 1]);
    }
  }
}
