/**
 Concrete runs in which the node does what its guarantees exclude: each starts as the driver
 does, and shows that a condition of some theorem cannot be dropped.
 */
module Scenarios {
  import opened Base
  import opened Types
  import opened SpanBlocks
  import opened DerivationState
  import opened BatchQueue
  import opened BatchSafety
  import opened Attributes
  import opened BlockTree
  import opened ForkChoice
  import opened NodeModel
  import opened NodeSafety
  import opened NodeTheorems
  import opened AbortSafety
  import opened Sequencing
  import opened FinalityOrder

  // ------------------------------------------------------------------------------ a start

  /** A rollup from genesis, with blocks every two seconds. */
  function Rollup(channelTimeout: nat): Config { Config(2, 10, 3, channelTimeout, 0, 0, 0, 0, 1000, 0, 0) }

  function L1Hash(i: nat): Hash { Hash(seq(i, _ => 0), []) }

  function L2Hash(i: nat): Hash { Hash(seq(i, _ => 0), [1]) }

  lemma HashesDiffer(i: nat, j: nat)
    requires i != j
    ensures L1Hash(i) != L1Hash(j) && L2Hash(i) != L2Hash(j)
  {
    assert |L1Hash(i).first20| != |L1Hash(j).first20|;
  }

  /** An L1 chain, with blocks every two seconds, of which block 1 carries the given deposits. */
  function L1Chain(length: nat, deposits: seq<UserDeposited>): seq<L1Info> {
    seq(length, i requires 0 <= i < length =>
      L1Info(L1BlockInfo(i, L1Hash(i), 2 * i, 0, L1Hash(0)), SystemConfig([], 0, 0, 0, []), if i == 1 then deposits else []))
  }

  lemma L1ChainValid(length: nat, deposits: seq<UserDeposited>)
    ensures ValidL1(L1Chain(length, deposits))
  {
    forall i, j | 0 <= i < j < length ensures L1Hash(i) != L1Hash(j) {
      HashesDiffer(i, j);
    }
  }

  function Header(i: nat): BlockInfo {
    BlockInfo(L2Hash(i), i, if i == 0 then Hash([], [2]) else L2Hash(i - 1), 2 * i)
  }

  function EngineBlock(i: nat): L2Block { L2Block(Header(i), [], L1Hash(0), [], 0) }

  function ChainBlock(l1: seq<L1Info>, i: nat, epoch: nat): Derived
    requires epoch < |l1|
  {
    Derived(Header(i), EpochOf(l1[epoch]), 0, 0, [])
  }

  function StartEngine(): Engine {
    Engine(map[L2Hash(0) := EngineBlock(0), L2Hash(1) := EngineBlock(1)], L2Hash(1), [])
  }

  /** A node that starts at block 1, which has the given L1 origin; block 0 has origin 0. */
  function Start(channelTimeout: nat, l1: seq<L1Info>, epoch: nat): Node
    requires epoch < |l1|
  {
    var head, origin, start := Header(1), EpochOf(l1[epoch]), L1StartBlock(epoch, channelTimeout);
    Node(l1, start, start,
         StateView(map[], map[], map[0 := (Header(0), EpochOf(l1[0])), 1 := (head, origin)], head, origin, 0),
         Pipeline(Queue(map[], []), 0, origin.hash),
         Driven(Heads(head, head, origin, head, origin), StartEngine()),
         [], 0, [], [ChainBlock(l1, 0, 0), ChainBlock(l1, 1, epoch)], 1)
  }

  lemma StartTree()
    ensures WellFormed(StartEngine().blocks)
    ensures InTree(StartEngine().blocks, Header(0)) && InTree(StartEngine().blocks, Header(1))
    ensures IsAncestor(StartEngine().blocks, L2Hash(1), L2Hash(1))
  {
    HashesDiffer(0, 1);
  }

  lemma StartInit(channelTimeout: nat, length: nat, deposits: seq<UserDeposited>, epoch: nat)
    requires epoch < length && epoch <= 1
    ensures Init(Rollup(channelTimeout), Start(channelTimeout, L1Chain(length, deposits), epoch))
  {
    var cfg, l1 := Rollup(channelTimeout), L1Chain(length, deposits);
    var n := Start(channelTimeout, l1, epoch);
    L1ChainValid(length, deposits);
    StartTree();
    assert Placed(cfg, l1, n.chain[0]) && Placed(cfg, l1, n.chain[1]);
    assert Succeeds(n.chain[0], n.chain[1]);
    assert At(n.chain, 0) == n.chain[0] && At(n.chain, 1) == n.chain[1];
  }

  // ------------------------------------------------------------------- delivering L1 blocks

  function Deliveries(k: nat): seq<Event> { seq(k, _ => NewBlock) }

  /** L1 blocks have been delivered, and nothing else has happened. */
  ghost predicate JustDelivered(n: Node, now: Node, k: nat) {
    && now == n.(state := now.state, nextL1 := n.nextL1 + k)
    && now.state.l2Refs == n.state.l2Refs
    && now.state.safeHead == n.state.safeHead && now.state.safeEpoch == n.state.safeEpoch
    && (k > 0 ==> now.state.currentEpochNum + 1 == n.nextL1 + k)
  }

  lemma DeliverOne(channelTimeout: nat, l1: seq<L1Info>, epoch: nat, now: Node, k: nat)
    requires epoch < |l1| && epoch <= 1 && ValidL1(l1)
    requires JustDelivered(Start(channelTimeout, l1, epoch), now, k) && now.nextL1 < |l1|
    ensures JustDelivered(Start(channelTimeout, l1, epoch), NewBlockStep(Rollup(channelTimeout), now), k + 1)
  {
    var cfg := Rollup(channelTimeout);
    var s := now.state.Inserted(l1[now.nextL1]);
    assert s.L1PruneUntil(cfg) == 0 && s.L2PruneUntil(cfg) == 0;
    var pruned := s.WithoutL1Below(0);
    assert pruned.WithoutL2Below(0).l2Refs == now.state.l2Refs;
  }

  lemma {:induction false} Deliver(channelTimeout: nat, l1: seq<L1Info>, epoch: nat, k: nat)
    requires epoch < |l1| && epoch <= 1 && ValidL1(l1) && L1StartBlock(epoch, channelTimeout) + k <= |l1|
    ensures var cfg, n := Rollup(channelTimeout), Start(channelTimeout, l1, epoch);
            && FairRun(cfg, n, Deliveries(k)) && Run(cfg, n, Deliveries(k)).Some?
            && JustDelivered(n, Run(cfg, n, Deliveries(k)).value, k)
  {
    if k > 0 {
      Deliver(channelTimeout, l1, epoch, k - 1);
      assert Deliveries(k)[..k - 1] == Deliveries(k - 1);
      var cfg, n := Rollup(channelTimeout), Start(channelTimeout, l1, epoch);
      DeliverOne(channelTimeout, l1, epoch, Run(cfg, n, Deliveries(k - 1)).value, k - 1);
    }
  }

  // -------------------------------------------------------------------------- single pulls

  /** The engine's canonical head is the safe head, and the hash is free for the next block. */
  ghost predicate AtTip(n: Node, hash: Hash) {
    && n.driven.heads.unsafeHead == n.driven.heads.safeHead
    && n.driven.engine.canonical == n.driven.heads.safeHead.hash
    && hash !in n.driven.engine.blocks
    && forall h :: h in n.driven.engine.blocks ==> n.driven.engine.blocks[h].info.parentHash != hash
  }

  /** At the tip the engine builds the attributes of the next slot under the given hash. */
  lemma BuildsNext(cfg: Config, n: Node, p: Pipeline, a: PayloadAttributes, hash: Hash)
    requires Inv(cfg, n) && GoodAttributes(cfg, n, p, a) && AtTip(n, hash)
    ensures AfterPull(cfg, n, p, Attrs(a), hash).Some?
    ensures var n' := AfterPull(cfg, n, p, Attrs(a), hash).value;
            && n'.driven.heads.safeHead.hash == hash && n'.driven.heads.unsafeHead == n'.driven.heads.safeHead
            && n'.driven.engine.canonical == hash
            && n'.driven.engine.blocks == n.driven.engine.blocks[hash := n.driven.engine.Payload(n.driven.heads.safeHead.hash, a, hash)]
  {
    NextSlotIsNext(cfg, n);
    var d := n.driven;
    assert InTree(d.engine.blocks, d.heads.safeHead);
    assert AncestorAt(d.engine.blocks, d.engine.canonical, d.heads.safeHead.number + 1).None?;
    assert BlockAt(d, cfg.blocktime, a.timestamp) == None;
  }

  function Rest(batches: map<nat, Batch>, t: nat): map<nat, Batch> { batches - {t} }

  /** The first of the batches a pull looks at is accepted, and has one block to derive. */
  ghost predicate AcceptsOne(cfg: Config, n: Node, read: ChannelRead, t: nat, input: BlockInput)
    requires Inv(cfg, n) && ValidRead(read) && Keyed(cfg, Candidates(cfg, n, read))
  {
    var batches := Candidates(cfg, n, read);
    && n.pipeline.queue.pending == [] && !read.Undecodable?
    && IsLeast(t, batches.Keys) && Status(cfg, n.state, batches[t]) == Accept
    && FilterInputs(n.state, AsInputs(cfg, batches[t])) == [input]
  }

  lemma EmitsOne(cfg: Config, n: Node, read: ChannelRead, t: nat, input: BlockInput)
    requires Inv(cfg, n) && ValidRead(read) && Keyed(cfg, Candidates(cfg, n, read)) && AcceptsOne(cfg, n, read, t, input)
    ensures TryNext(cfg, n.state, n.pipeline.queue, read) == (Queue(Rest(Candidates(cfg, n, read), t), []), Emit(input))
  {
    var batches := Candidates(cfg, n, read);
    assert FirstBatch(batches) == t;
    assert Scan(cfg, n.state, batches) == (Rest(batches, t), Accepted(batches[t]));
    assert [input][1..] == [];
    assert TryNext(cfg, n.state, n.pipeline.queue, read) == Derive(cfg, n.state, batches);
  }

  /** The pipeline then yields the attributes of that block. */
  ghost predicate AttributesFor(cfg: Config, n: Node, input: BlockInput, a: PayloadAttributes)
    requires input.epoch < |n.l1|
  {
    && a.l1InclusionBlock == input.l1InclusionBlock && a.epoch == EpochOf(n.l1[input.epoch]) && a.timestamp == input.timestamp
    && a.seqNumber == NextSequence(n.pipeline.sequenceNumber, n.pipeline.epochHash, a.epoch.hash)
  }

  lemma YieldsOne(cfg: Config, n: Node, read: ChannelRead, t: nat, input: BlockInput)
    requires Inv(cfg, n) && ValidRead(read) && ReadAligned(cfg, read) && Keyed(cfg, Candidates(cfg, n, read))
    requires AcceptsOne(cfg, n, read, t, input) && input.epoch < n.nextL1
    ensures var (p, outcome) := NextAttributes(cfg, n.state, n.pipeline, read);
            && outcome.Attrs? && GoodAttributes(cfg, n, p, outcome.attributes)
            && AttributesFor(cfg, n, input, outcome.attributes)
            && p.queue == Queue(Rest(Candidates(cfg, n, read), t), [])
  {
    EmitsOne(cfg, n, read, t, input);
    NextAttributesGood(cfg, n, read);
    TryNextSafe(cfg, n.state, n.l1, n.lo, n.nextL1, n.pipeline.queue, read);
    OriginResolvedIff(cfg, n.state, n.l1, n.lo, n.nextL1, input);
    WindowResolvesHash(n.state, n.l1, n.lo, n.nextL1, input.epoch);
  }

  /** What a node at the tip becomes by deriving a block under the given hash. */
  ghost predicate Derives(cfg: Config, n: Node, n': Node, input: BlockInput, hash: Hash)
    requires input.epoch < |n.l1|
  {
    && (exists a :: Pulled(n, n'.pipeline, a, n') && AttributesFor(cfg, n, input, a))
    && n'.nextL1 == n.nextL1 && n'.lo == n.lo
    && n'.driven.heads.safeHead.hash == hash && n'.driven.heads.unsafeHead == n'.driven.heads.safeHead
    && n'.driven.engine.canonical == hash
    && n'.driven.engine.blocks.Keys == n.driven.engine.blocks.Keys + {hash}
    && (forall h :: h in n.driven.engine.blocks && h != hash ==> n'.driven.engine.blocks[h] == n.driven.engine.blocks[h])
    && n'.driven.engine.blocks[hash].info.parentHash == n.driven.heads.safeHead.hash
    && n'.pipeline.epochHash == n.l1[input.epoch].blockInfo.hash
  }

  lemma BuildDerives(cfg: Config, n: Node, p: Pipeline, a: PayloadAttributes, input: BlockInput, hash: Hash)
    requires Inv(cfg, n) && GoodAttributes(cfg, n, p, a) && AtTip(n, hash)
    requires input.epoch < |n.l1| && AttributesFor(cfg, n, input, a)
    ensures AfterPull(cfg, n, p, Attrs(a), hash).Some?
    ensures Derives(cfg, n, AfterPull(cfg, n, p, Attrs(a), hash).value, input, hash)
    ensures AfterPull(cfg, n, p, Attrs(a), hash).value.pipeline == p
  {
    BuildsNext(cfg, n, p, a, hash);
    PullAppends(cfg, n, p, a, hash);
    var n' := AfterPull(cfg, n, p, Attrs(a), hash).value;
    assert Pulled(n, n'.pipeline, a, n');
  }

  /** Such a pull derives that block. */
  lemma PullAccepts(cfg: Config, n: Node, read: ChannelRead, hash: Hash, t: nat, input: BlockInput)
    requires Inv(cfg, n) && ValidRead(read) && ReadAligned(cfg, read) && Keyed(cfg, Candidates(cfg, n, read))
    requires AcceptsOne(cfg, n, read, t, input) && AtTip(n, hash) && input.epoch < n.nextL1
    ensures PullStep(cfg, n, read, hash).Some?
    ensures Derives(cfg, n, PullStep(cfg, n, read, hash).value, input, hash)
    ensures PullStep(cfg, n, read, hash).value.pipeline.queue == Queue(Rest(Candidates(cfg, n, read), t), [])
  {
    hide AcceptsOne, AtTip, AfterPull, Derives, AttributesFor;
    YieldsOne(cfg, n, read, t, input);
    var (p, outcome) := NextAttributes(cfg, n.state, n.pipeline, read);
    BuildDerives(cfg, n, p, outcome.attributes, input, hash);
  }

  /** The first of the batches a pull looks at lies in the future, and no block is forced. */
  lemma PullWaits(cfg: Config, n: Node, read: ChannelRead, hash: Hash, t: nat)
    requires Inv(cfg, n) && ValidRead(read) && Keyed(cfg, Candidates(cfg, n, read))
    requires n.pipeline.queue.pending == [] && !read.Undecodable? && IsLeast(t, Candidates(cfg, n, read).Keys)
    requires Status(cfg, n.state, Candidates(cfg, n, read)[t]) == Future && ForcedInput(cfg, n.state).None?
    ensures PullStep(cfg, n, read, hash)
         == Some(n.(pipeline := n.pipeline.(queue := Queue(Candidates(cfg, n, read), []))))
  {
    var batches := Candidates(cfg, n, read);
    assert FirstBatch(batches) == t;
    assert TryNext(cfg, n.state, n.pipeline.queue, read) == Derive(cfg, n.state, batches);
  }

  // --------------------------------------------------------------------------- scenarios

  /** The node now, after k deliveries to a node n that starts, and what it can look up. */
  ghost predicate Delivered(
    channelTimeout: nat, length: nat, deposits: seq<UserDeposited>, epoch: nat, k: nat, n: Node, now: Node)
    requires epoch < length
  {
    var cfg := Rollup(channelTimeout);
    && n == Start(channelTimeout, L1Chain(length, deposits), epoch)
    && Init(cfg, n) && FairRun(cfg, n, Deliveries(k)) && Run(cfg, n, Deliveries(k)) == Some(now)
    && JustDelivered(n, now, k) && Inv(cfg, now)
    && (forall i: nat :: now.state.EpochByNumber(i) == if now.lo <= i < now.nextL1 then Some(EpochOf(now.l1[i])) else None)
  }

  lemma DeliverFrom(channelTimeout: nat, length: nat, deposits: seq<UserDeposited>, epoch: nat, k: nat)
    returns (n: Node, now: Node)
    requires epoch < length && epoch <= 1 && L1StartBlock(epoch, channelTimeout) + k <= length
    ensures Delivered(channelTimeout, length, deposits, epoch, k, n, now)
  {
    var cfg, l1 := Rollup(channelTimeout), L1Chain(length, deposits);
    n := Start(channelTimeout, l1, epoch);
    StartInit(channelTimeout, length, deposits, epoch);
    Deliver(channelTimeout, l1, epoch, k);
    RunKeeps(cfg, n, Deliveries(k));
    now := Run(cfg, n, Deliveries(k)).value;
    forall i: nat
      ensures now.state.EpochByNumber(i) == if now.lo <= i < now.nextL1 then Some(EpochOf(now.l1[i])) else None
    {
      EpochByNumberExact(now.state, now.l1, now.lo, now.nextL1, i);
    }
  }

  /** A run from the start goes on with one more event. */
  lemma GoesOn(cfg: Config, n: Node, events: seq<Event>, now: Node, e: Event, after: Node)
    requires ValidConfig(cfg) && FairRun(cfg, n, events) && Run(cfg, n, events) == Some(now)
    requires Fair(cfg, now, e) && Step(cfg, now, e) == Some(after)
    ensures FairRun(cfg, n, events + [e]) && Run(cfg, n, events + [e]) == Some(after)
  {
    hide Fair, Step;
    RunAppend(cfg, n, events, e);
  }

  lemma StartRun(channelTimeout: nat, length: nat, deposits: seq<UserDeposited>, epoch: nat, k: nat, n: Node, now: Node)
    requires epoch < length && Delivered(channelTimeout, length, deposits, epoch, k, n, now)
    ensures var cfg := Rollup(channelTimeout);
            Init(cfg, n) && FairRun(cfg, n, Deliveries(k)) && Run(cfg, n, Deliveries(k)) == Some(now) && Inv(cfg, now)
  {
  }

  lemma OneArrival(cfg: Config, n: Node, b: Batch)
    requires n.pipeline.queue.batches == map[]
    ensures Candidates(cfg, n, Decoded([b])) == map[Timestamp(cfg, b) := b]
    ensures IsLeast(Timestamp(cfg, b), Candidates(cfg, n, Decoded([b])).Keys)
  {
    assert [b][..0] == [];
    assert Insert(cfg, n.pipeline.queue.batches, []) == map[];
    assert Candidates(cfg, n, Decoded([b])) == map[Timestamp(cfg, b) := b];
  }

  // ------------------------------------------------------------- a span that skips an origin

  /** A span of one block right after block 1, with origin 2. */
  ghost predicate JumpsToTwo(b: SpanBatch) {
    && b.relTimestamp == 4 && b.l1OriginNum == 2 && b.l1InclusionBlock == 3
    && b.parentCheck == L2Hash(1).first20 && b.l1OriginCheck == L1Hash(2).first20
    && b.blockCount == 1 && |b.originBits| == 1 && b.originBits[0] && b.blockTxCounts == [0] && b.transactions == []
  }

  lemma SomeJump() returns (b: SpanBatch)
    ensures JumpsToTwo(b)
  {
    b := SpanBatch(4, 2, L2Hash(1).first20, L1Hash(2).first20, 1, [true], [0], [], 3);
  }

  lemma OneBlock(cfg: Config, b: SpanBatch)
    requires b.blockCount == 1 && |b.originBits| == 1 && b.blockTxCounts == [0] && b.transactions == []
    requires b.originBits[0] ==> b.l1OriginNum > 0
    ensures ValidSpan(b) && StartEpochNum(b) == b.l1OriginNum
    ensures InputAt(cfg, b, 0) == BlockInput(StartTimestamp(cfg, b), b.l1OriginNum, [], b.l1InclusionBlock)
    ensures BlockInputs(cfg, b) == [InputAt(cfg, b, 0)]
  {
    assert b.originBits[..0] == [] && b.originBits[..1] == b.originBits;
    assert [0][..0] == [] && [0][..1] == [0];
    assert CountTrue([]) == 0 && Sum([]) == 0;
  }

  /** The caches after a start at origin 0: the safe head is block 1, and L1 blocks below k are known. */
  ghost predicate AfterGenesis(s: StateView, k: nat) {
    && s.safeHead == Header(1) && s.safeEpoch == Epoch(0, L1Hash(0), 0)
    && s.l2Refs == map[0 := (Header(0), s.safeEpoch), 1 := (Header(1), s.safeEpoch)]
    && forall i: nat :: s.EpochByNumber(i) == if i < k then Some(Epoch(i, L1Hash(i), 2 * i)) else None
  }

  lemma DeliveredAfterGenesis(length: nat, deposits: seq<UserDeposited>, k: nat, n: Node, now: Node)
    requires k <= length && 0 < length && Delivered(0, length, deposits, 0, k, n, now)
    ensures AfterGenesis(now.state, k)
  {
    assert now.lo == 0 && now.nextL1 == k && now.l1 == n.l1;
  }

  lemma JumpAccepted(s: StateView, b: SpanBatch)
    requires AfterGenesis(s, 4) && JumpsToTwo(b)
    ensures ValidSpan(b) && SpanStatus(Rollup(0), s, b) == Accept
    ensures FilterInputs(s, BlockInputs(Rollup(0), b)) == [BlockInput(4, 2, [], 3)]
  {
    hide SpanStatus, SpanHeaderStatus, SpanDrift, SpanOverlap;
    var cfg := Rollup(0);
    OneBlock(cfg, b);
    assert SubWrap(StartTimestamp(cfg, b), cfg.blocktime) == 2;
    assert PrevBlock(cfg, s, b) == Some((Header(1), s.safeEpoch));
    assert s.EpochByNumber(2) == Some(Epoch(2, L1Hash(2), 4));
    assert BlockAllowed(cfg, s, b, 0);
    SpanAcceptIff(cfg, s, b);
    FilterIsSuffix(s, BlockInputs(cfg, b), 0);
  }

  /**
   From a start at genesis, L1 blocks 0 to 3 are delivered and one span arrives. It is accepted
   with origin 2 right after a block with origin 0, and the deposit of L1 block 1 is in no block.
   */
  lemma SpanSkipsDeposit(deposit: UserDeposited)
    returns (n: Node, events: seq<Event>, b: SpanBatch, after: Node)
    ensures Init(Rollup(0), n) && FairRun(Rollup(0), n, events) && Run(Rollup(0), n, events) == Some(after)
    ensures events == Deliveries(4) + [Pull(Decoded([Span(b)]), L2Hash(2))]
    ensures |after.chain| == 3 && after.chain[1].epoch.number == 0 && after.chain[2].epoch.number == 2
    ensures |after.l1| == 4 && after.l1[1].userDeposits == [deposit] && after.base == 1 && !Conserved(after)
  {
    hide Init, FairRun, Run, Conserved, Step, Fair, Delivered, Inv, Start, Deliveries;
    var now;
    b := SomeJump();
    n, now := DeliverFrom(0, 4, [deposit], 0, 4);
    StartRun(0, 4, [deposit], 0, 4, n, now);
    var e := Pull(Decoded([Span(b)]), L2Hash(2));
    after := JumpDerived(n, now, deposit, b);
    RollupValid(0);
    GoesOn(Rollup(0), n, Deliveries(4), now, e, after);
    events := Deliveries(4) + [e];
    DepositsConservedIff(Rollup(0), n, events);
    SkipsOne(after, deposit);
  }

  lemma AlignedRead(cfg: Config, b: SpanBatch)
    requires cfg.blocktime > 0 && ValidSpan(b) && AlignedSpan(cfg, b)
    ensures ValidRead(Decoded([Span(b)])) && ReadAligned(cfg, Decoded([Span(b)]))
  {
  }

  lemma RollupValid(channelTimeout: nat)
    ensures ValidConfig(Rollup(channelTimeout))
  {
  }

  lemma JumpDerived(n: Node, now: Node, deposit: UserDeposited, b: SpanBatch) returns (after: Node)
    requires Delivered(0, 4, [deposit], 0, 4, n, now) && JumpsToTwo(b)
    ensures ValidConfig(Rollup(0))
    ensures var e := Pull(Decoded([Span(b)]), L2Hash(2));
            Fair(Rollup(0), now, e) && Step(Rollup(0), now, e) == Some(after)
    ensures |after.chain| == 3 && after.base == 1 && after.chain[1].epoch.number == 0 && after.chain[2].epoch.number == 2
    ensures |after.l1| == 4 && after.l1[1].userDeposits == [deposit]
  {
    StartFacts(0, 4, [deposit], 0, 4, n, now, L2Hash(2));
    StartRun(0, 4, [deposit], 0, 4, n, now);
    DeliveredAfterGenesis(4, [deposit], 4, n, now);
    after := DerivesJump(now, b);
  }

  lemma DerivesJump(now: Node, b: SpanBatch) returns (after: Node)
    requires Inv(Rollup(0), now) && AfterGenesis(now.state, 4) && AtTip(now, L2Hash(2)) && now.nextL1 == 4
    requires now.pipeline.queue == Queue(map[], []) && JumpsToTwo(b)
    ensures var e := Pull(Decoded([Span(b)]), L2Hash(2));
            Fair(Rollup(0), now, e) && Step(Rollup(0), now, e) == Some(after)
    ensures Derives(Rollup(0), now, after, BlockInput(4, 2, [], 3), L2Hash(2))
  {
    hide Inv, AtTip, Derives, SpanStatus, AfterGenesis, PullStep, FilterInputs, BlockInputs, Candidates;
    var cfg, read := Rollup(0), Decoded([Span(b)]);
    JumpAccepted(now.state, b);
    OneArrival(cfg, now, Span(b));
    CandidatesKeyed(cfg, now, read);
    AlignedRead(cfg, b);
    assert AcceptsOne(cfg, now, read, 4, BlockInput(4, 2, [], 3));
    PullAccepts(cfg, now, read, L2Hash(2), 4, BlockInput(4, 2, [], 3));
    after := PullStep(cfg, now, read, L2Hash(2)).value;
  }

  lemma StartFacts(channelTimeout: nat, length: nat, deposits: seq<UserDeposited>, epoch: nat, k: nat, n: Node, now: Node, hash: Hash)
    requires epoch < length && Delivered(channelTimeout, length, deposits, epoch, k, n, now)
    requires exists i :: 1 < i && hash == L2Hash(i)
    ensures AtTip(now, hash) && now.pipeline == Pipeline(Queue(map[], []), 0, L1Hash(epoch)) && now.base == 1
    ensures now.l1 == L1Chain(length, deposits) && now.nextL1 == L1StartBlock(epoch, channelTimeout) + k
    ensures |now.chain| == 2 && now.chain[0].epoch.number == 0 && now.chain[1].epoch.number == epoch
    ensures now.unfinalized == [] && now.finalizedL1 == 0
  {
    var i :| 1 < i && hash == L2Hash(i);
    HashesDiffer(i, 0);
    HashesDiffer(i, 1);
    assert |Hash([], [2]).first20| != |L2Hash(i).first20|;
  }

  lemma SkipsOne(n: Node, deposit: UserDeposited)
    requires |n.chain| == 3 && n.base == 1 && n.chain[1].epoch.number == 0 && n.chain[2].epoch.number == 2
    requires |n.l1| == 4 && n.l1[1].userDeposits == [deposit]
    ensures !NothingSkipped(n.l1, n.chain, n.base, 2)
  {
    assert L1Deposits(n.l1, 0, 0) == [];
    assert SkippedBefore(n.l1, n.chain, 2) == L1Deposits(n.l1, 0, 1) == [] + [deposit];
  }

  // ------------------------------------------------------------- a span that is off schedule

  /** A span of one block that starts half a block time after block 1, with origin 0. */
  ghost predicate OffSchedule(b: SpanBatch) {
    && b.relTimestamp == 3 && b.l1OriginNum == 0 && b.l1InclusionBlock == 1
    && b.parentCheck == L2Hash(0).first20 && b.l1OriginCheck == L1Hash(0).first20
    && b.blockCount == 1 && |b.originBits| == 1 && !b.originBits[0] && b.blockTxCounts == [0] && b.transactions == []
  }

  lemma OffLookups(s: StateView)
    requires s.l2Refs == map[0 := (Header(0), s.safeEpoch), 1 := (Header(1), s.safeEpoch)]
    ensures s.L2InfoByTimestamp(Rollup(0), 1) == Some((Header(0), s.safeEpoch))
    ensures s.L2InfoByTimestamp(Rollup(0), 3) == Some((Header(1), s.safeEpoch))
  {
    hide Header;
    assert SubWrap(1, 0) / 2 == 0 && SubWrap(3, 0) / 2 == 1;
  }

  lemma OffAccepted(s: StateView, b: SpanBatch)
    requires AfterGenesis(s, 2) && OffSchedule(b)
    ensures ValidSpan(b) && SpanStatus(Rollup(0), s, b) == Accept
    ensures FilterInputs(s, BlockInputs(Rollup(0), b)) == [BlockInput(3, 0, [], 1)]
  {
    hide SpanStatus, SpanHeaderStatus, SpanDrift, SpanOverlap;
    var cfg := Rollup(0);
    OneBlock(cfg, b);
    OffLookups(s);
    assert SubWrap(StartTimestamp(cfg, b), cfg.blocktime) == 1;
    assert PrevBlock(cfg, s, b) == Some((Header(0), s.safeEpoch));
    assert s.EpochByNumber(0) == Some(Epoch(0, L1Hash(0), 0));
    assert BlockAllowed(cfg, s, b, 0);
    SpanAcceptIff(cfg, s, b);
    FilterIsSuffix(s, BlockInputs(cfg, b), 0);
  }

  /**
   A span that is not aligned to the block time is accepted: after a start at genesis and two
   deliveries the node emits a block one second after the safe head, with a block time of two.
   */
  lemma UnalignedSpanAccepted() returns (n: Node, events: seq<Event>, now: Node, b: SpanBatch)
    ensures Init(Rollup(0), n) && FairRun(Rollup(0), n, events) && Run(Rollup(0), n, events) == Some(now)
    ensures ValidSpan(b) && SpanStatus(Rollup(0), now.state, b) == Accept && !AlignedSpan(Rollup(0), b)
    ensures Keyed(Rollup(0), now.pipeline.queue.batches) && ValidRead(Decoded([Span(b)]))
    ensures TryNext(Rollup(0), now.state, now.pipeline.queue, Decoded([Span(b)])).1 == Emit(BlockInput(3, 0, [], 1))
    ensures now.state.safeHead.timestamp == 2 && Rollup(0).blocktime == 2
  {
    hide Init, FairRun, Run, Step, Fair, Delivered, Start, Deliveries, TryNext, Inv, AfterGenesis, SpanStatus, ValidSpan, Keyed;
    b := SomeOffSchedule();
    n, now := DeliverFrom(0, 2, [], 0, 2);
    events := Deliveries(2);
    StartRun(0, 2, [], 0, 2, n, now);
    StartFacts(0, 2, [], 0, 2, n, now, L2Hash(2));
    DeliveredAfterGenesis(2, [], 2, n, now);
    EmitsOff(now, b);
  }

  lemma SomeOffSchedule() returns (b: SpanBatch)
    ensures OffSchedule(b)
  {
    b := SpanBatch(3, 0, L2Hash(0).first20, L1Hash(0).first20, 1, [false], [0], [], 1);
  }

  lemma GenesisTime(s: StateView, k: nat)
    requires AfterGenesis(s, k)
    ensures s.safeHead.timestamp == 2
  {
  }

  lemma EmitsOff(now: Node, b: SpanBatch)
    requires Inv(Rollup(0), now) && AfterGenesis(now.state, 2) && now.pipeline.queue == Queue(map[], []) && OffSchedule(b)
    ensures ValidSpan(b) && SpanStatus(Rollup(0), now.state, b) == Accept && !AlignedSpan(Rollup(0), b)
    ensures Keyed(Rollup(0), now.pipeline.queue.batches) && ValidRead(Decoded([Span(b)]))
    ensures now.state.safeHead.timestamp == 2
    ensures TryNext(Rollup(0), now.state, now.pipeline.queue, Decoded([Span(b)])).1 == Emit(BlockInput(3, 0, [], 1))
  {
    hide Inv, SpanStatus, AfterGenesis, FilterInputs, BlockInputs, Candidates, TryNext;
    var cfg, read := Rollup(0), Decoded([Span(b)]);
    GenesisTime(now.state, 2);
    OffAccepted(now.state, b);
    OneArrival(cfg, now, Span(b));
    CandidatesKeyed(cfg, now, read);
    assert AcceptsOne(cfg, now, read, 3, BlockInput(3, 0, [], 1));
    EmitsOne(cfg, now, read, 3, BlockInput(3, 0, [], 1));
  }

  // --------------------------------------------------------- spans and batches that panic

  /** A span over block 1 and the next, that claims origin 0 for block 1 and origin 1 after it. */
  ghost predicate ClaimsOldOrigin(b: SpanBatch) {
    && b.relTimestamp == 2 && b.l1OriginNum == 1 && b.l1InclusionBlock == 2
    && b.parentCheck == L2Hash(0).first20 && b.l1OriginCheck == L1Hash(1).first20
    && b.blockCount == 2 && |b.originBits| == 2 && !b.originBits[0] && b.originBits[1]
    && b.blockTxCounts == [0, 0] && b.transactions == []
  }

  lemma SomeOldOrigin() returns (b: SpanBatch)
    ensures ClaimsOldOrigin(b)
  {
    b := SpanBatch(2, 1, L2Hash(0).first20, L1Hash(1).first20, 2, [false, true], [0, 0], [], 2);
  }

  /** The caches after a start at origin 1 with L1 blocks 1 and 2 delivered. */
  ghost predicate AfterOrigin1(s: StateView) {
    && s.safeHead == Header(1) && s.safeEpoch == Epoch(1, L1Hash(1), 2)
    && s.l2Refs == map[0 := (Header(0), Epoch(0, L1Hash(0), 0)), 1 := (Header(1), s.safeEpoch)]
    && forall i: nat :: s.EpochByNumber(i) == if 1 <= i < 3 then Some(Epoch(i, L1Hash(i), 2 * i)) else None
  }

  lemma OldSpanValid(b: SpanBatch)
    requires ClaimsOldOrigin(b)
    ensures ValidSpan(b) && StartEpochNum(b) == 0
  {
    var bits, counts := b.originBits, b.blockTxCounts;
    assert bits[..1][..0] == [] && counts[..1][..0] == [];
    assert CountTrue(bits[..1]) == 0 && Sum(counts[..1]) == 0;
  }

  lemma OldSpanPasses(s: StateView, b: SpanBatch)
    requires AfterOrigin1(s) && ClaimsOldOrigin(b)
    ensures ValidSpan(b) && StartEpochNum(b) == 0 && SpanHeaderStatus(Rollup(0), s, b) == Accept
  {
    var cfg := Rollup(0);
    OldSpanValid(b);
    assert SubWrap(StartTimestamp(cfg, b), cfg.blocktime) == 0;
    assert PrevBlock(cfg, s, b) == Some((Header(0), Epoch(0, L1Hash(0), 0)));
    assert s.EpochByNumber(1) == Some(Epoch(1, L1Hash(1), 2));
  }

  /**
   A node that restarts at origin 1, with L1 delivered from there on, panics on a span that
   overlaps its head and claims origin 0 for it: the lookup of origin 0 fails.
   */
  lemma OldSpanPanics() returns (n: Node, events: seq<Event>, now: Node, b: SpanBatch)
    ensures Init(Rollup(0), n) && FairRun(Rollup(0), n, events) && Run(Rollup(0), n, events) == Some(now)
    ensures var e := Pull(Decoded([Span(b)]), L2Hash(2));
            Fair(Rollup(0), now, e) && Step(Rollup(0), now, e) == None
    ensures Keyed(Rollup(0), now.pipeline.queue.batches) && ValidRead(Decoded([Span(b)]))
    ensures NextAttributes(Rollup(0), now.state, now.pipeline, Decoded([Span(b)])).1 == PipelineAbort
  {
    hide Init, FairRun, Run, Step, Fair, Delivered, Start, Deliveries, NextAttributes, AfterOrigin1, PullStep;
    b := SomeOldOrigin();
    n, now := DeliverFrom(0, 3, [], 1, 2);
    events := Deliveries(2);
    StartRun(0, 3, [], 1, 2, n, now);
    StartFacts(0, 3, [], 1, 2, n, now, L2Hash(2));
    AtOrigin1(n, now);
    OldSpanValid(b);
    AlignedRead(Rollup(0), b);
    OldSpanAborts(now, b);
  }

  lemma AtOrigin1(n: Node, now: Node)
    requires Delivered(0, 3, [], 1, 2, n, now)
    ensures AfterOrigin1(now.state) && now.lo == 1 && now.pipeline.queue == Queue(map[], [])
  {
  }

  lemma OldSpanAborts(now: Node, b: SpanBatch)
    requires ClaimsOldOrigin(b) && ValidRead(Decoded([Span(b)])) && ReadAligned(Rollup(0), Decoded([Span(b)]))
    requires Inv(Rollup(0), now) && AfterOrigin1(now.state) && now.lo == 1 && now.pipeline.queue == Queue(map[], [])
    ensures Keyed(Rollup(0), now.pipeline.queue.batches)
    ensures NextAttributes(Rollup(0), now.state, now.pipeline, Decoded([Span(b)])).1 == PipelineAbort
    ensures var e := Pull(Decoded([Span(b)]), L2Hash(2));
            Fair(Rollup(0), now, e) && Step(Rollup(0), now, e) == None
  {
    hide AfterOrigin1, SpanHeaderStatus, NextAttributes, TryNext;
    var cfg, read := Rollup(0), Decoded([Span(b)]);
    OldSpanPasses(now.state, b);
    AlignedRead(cfg, b);
    OneArrival(cfg, now, Span(b));
    NothingStored(now);
    PullAbortsIff(cfg, now, read);
    var batches := Candidates(cfg, now, read);
    assert AsksForgotten(cfg, now, batches[2]);
    assert FirstPanics(cfg, now, batches, 2);
  }

  lemma NothingStored(n: Node)
    requires n.pipeline.queue == Queue(map[], [])
    ensures NamesDelivered(n)
  {
  }

  /** A span without blocks for the slot after block 1. */
  function NoBlocks(): SpanBatch { SpanBatch(4, 0, [], [], 0, [], [], [], 1) }

  /** After a start at genesis and two deliveries, the arrival of a span without blocks ends the process. */
  lemma EmptySpanPanics() returns (n: Node, events: seq<Event>, now: Node)
    ensures Init(Rollup(0), n) && FairRun(Rollup(0), n, events) && Run(Rollup(0), n, events) == Some(now)
    ensures var e := Pull(Decoded([Span(NoBlocks())]), L2Hash(2));
            Fair(Rollup(0), now, e) && Step(Rollup(0), now, e) == None
    ensures Keyed(Rollup(0), now.pipeline.queue.batches) && ValidRead(Decoded([Span(NoBlocks())]))
    ensures NextAttributes(Rollup(0), now.state, now.pipeline, Decoded([Span(NoBlocks())])).1 == PipelineAbort
  {
    hide Init, FairRun, Run, Step, Fair, Delivered, Start, Deliveries, NextAttributes, PullStep;
    n, now := DeliverFrom(0, 2, [], 0, 2);
    events := Deliveries(2);
    StartRun(0, 2, [], 0, 2, n, now);
    StartFacts(0, 2, [], 0, 2, n, now, L2Hash(2));
    EmptySpanAborts(now);
  }

  lemma EmptySpanAborts(now: Node)
    requires Inv(Rollup(0), now) && now.pipeline.queue == Queue(map[], [])
    ensures Keyed(Rollup(0), now.pipeline.queue.batches) && ValidRead(Decoded([Span(NoBlocks())]))
    ensures NextAttributes(Rollup(0), now.state, now.pipeline, Decoded([Span(NoBlocks())])).1 == PipelineAbort
    ensures var e := Pull(Decoded([Span(NoBlocks())]), L2Hash(2));
            Fair(Rollup(0), now, e) && Step(Rollup(0), now, e) == None
  {
    hide NextAttributes, TryNext, AsksForgotten;
    var cfg, read := Rollup(0), Decoded([Span(NoBlocks())]);
    assert Sum([]) == 0;
    OneArrival(cfg, now, Span(NoBlocks()));
    NothingStored(now);
    PullAbortsIff(cfg, now, read);
    assert FirstPanics(cfg, now, Candidates(cfg, now, read), 4);
  }

  // ----------------------------------------------------- finality that moves back, in a run

  /** The block after next, with origin 2, included in L1 block 3. */
  function LateSlot(): SingleBatch { SingleBatch(L2Hash(2), 2, L1Hash(2), 6, [], 3) }

  /** The next block, with origin 1, included in L1 block 5. */
  function NextSlotBatch(): SingleBatch { SingleBatch(L2Hash(1), 1, L1Hash(1), 4, [], 5) }

  /** A pull whose first batch is a single one that is accepted derives its block. */
  lemma DerivesSingle(cfg: Config, n: Node, read: ChannelRead, b: SingleBatch, hash: Hash) returns (after: Node)
    requires Inv(cfg, n) && ValidRead(read) && ReadAligned(cfg, read) && ReadDelivered(n, read) && Keyed(cfg, Candidates(cfg, n, read))
    requires n.pipeline.queue.pending == [] && !read.Undecodable? && AtTip(n, hash)
    requires IsLeast(b.timestamp, Candidates(cfg, n, read).Keys) && Candidates(cfg, n, read)[b.timestamp] == Single(b)
    requires SingleStatus(cfg, n.state, b) == Accept && n.state.safeHead.timestamp < b.timestamp && b.epochNum < n.nextL1
    ensures Fair(cfg, n, Pull(read, hash)) && Step(cfg, n, Pull(read, hash)) == Some(after)
    ensures b.epochNum < |n.l1| && Derives(cfg, n, after, SingleInput(b), hash)
    ensures after.pipeline.queue == Queue(Rest(Candidates(cfg, n, read), b.timestamp), [])
  {
    hide Candidates, PullStep, AtTip, Derives, SingleStatus;
    var input := SingleInput(b);
    FilterIsSuffix(n.state, [input], 0);
    assert AcceptsOne(cfg, n, read, b.timestamp, input);
    PullAccepts(cfg, n, read, hash, b.timestamp, input);
    after := PullStep(cfg, n, read, hash).value;
  }

  /** The batch of the later slot arrives first, and waits. */
  lemma LateSlotWaits(now: Node) returns (after: Node)
    requires Inv(Rollup(0), now) && AfterGenesis(now.state, 6) && now.state.currentEpochNum == 5
    requires now.pipeline.queue == Queue(map[], [])
    ensures var e := Pull(Decoded([Single(LateSlot())]), L2Hash(2));
            Fair(Rollup(0), now, e) && Step(Rollup(0), now, e) == Some(after)
    ensures after == now.(pipeline := now.pipeline.(queue := Queue(map[6 := Single(LateSlot())], [])))
  {
    hide Inv, AfterGenesis, Candidates, PullStep, ForcedInput, ReadDelivered;
    var cfg, read := Rollup(0), Decoded([Single(LateSlot())]);
    GenesisTime(now.state, 6);
    OneArrival(cfg, now, Single(LateSlot()));
    CandidatesKeyed(cfg, now, read);
    NothingForced(now.state);
    LateSlotNames(now);
    FutureIff(cfg, now.state, Single(LateSlot()));
    PullWaits(cfg, now, read, L2Hash(2), 6);
    after := PullStep(cfg, now, read, L2Hash(2)).value;
  }

  lemma LateSlotNames(now: Node)
    requires AfterGenesis(now.state, 6)
    ensures ReadDelivered(now, Decoded([Single(LateSlot())]))
  {
    HashesDiffer(0, 2);
  }

  lemma NothingForced(s: StateView)
    requires AfterGenesis(s, 6) && s.currentEpochNum == 5
    ensures ForcedInput(Rollup(0), s).None?
  {
    assert s.EpochByNumber(1) == Some(Epoch(1, L1Hash(1), 2));
  }

  lemma NextSlotAccepted(s: StateView)
    requires AfterGenesis(s, 6)
    ensures SingleStatus(Rollup(0), s, NextSlotBatch()) == Accept
  {
    assert s.EpochByNumber(1) == Some(Epoch(1, L1Hash(1), 2));
    SingleAcceptIff(Rollup(0), s, NextSlotBatch());
  }

  lemma NextSlotNames(now: Node)
    requires AfterGenesis(now.state, 6)
    ensures ReadDelivered(now, Decoded([Single(NextSlotBatch())]))
  {
    HashesDiffer(0, 1);
  }

  /** Then the batch of the next slot arrives, and its block is derived. */
  lemma NextSlotDerives(now: Node) returns (after: Node)
    requires Inv(Rollup(0), now) && AfterGenesis(now.state, 6) && AtTip(now, L2Hash(2)) && now.nextL1 == 6
    requires now.pipeline.queue == Queue(map[6 := Single(LateSlot())], [])
    ensures var e := Pull(Decoded([Single(NextSlotBatch())]), L2Hash(2));
            Fair(Rollup(0), now, e) && Step(Rollup(0), now, e) == Some(after)
    ensures Derives(Rollup(0), now, after, SingleInput(NextSlotBatch()), L2Hash(2))
    ensures after.pipeline.queue == Queue(map[6 := Single(LateSlot())], [])
  {
    hide Inv, AfterGenesis, Candidates, AtTip, Derives, SingleStatus, Step, Fair, ReadDelivered;
    var cfg, read := Rollup(0), Decoded([Single(NextSlotBatch())]);
    NextSlotAccepted(now.state);
    GenesisTime(now.state, 6);
    SecondArrival(cfg, now, Single(LateSlot()), Single(NextSlotBatch()));
    CandidatesKeyed(cfg, now, read);
    NextSlotNames(now);
    after := DerivesSingle(cfg, now, read, NextSlotBatch(), L2Hash(2));
  }

  lemma SecondArrival(cfg: Config, n: Node, stored: Batch, b: Batch)
    requires n.pipeline.queue.batches == map[Timestamp(cfg, stored) := stored] && Timestamp(cfg, b) < Timestamp(cfg, stored)
    ensures var batches := Candidates(cfg, n, Decoded([b]));
            && Timestamp(cfg, b) in batches && batches[Timestamp(cfg, b)] == b
            && IsLeast(Timestamp(cfg, b), batches.Keys)
            && Rest(batches, Timestamp(cfg, b)) == map[Timestamp(cfg, stored) := stored]
  {
    assert [b][..0] == [];
    assert Insert(cfg, n.pipeline.queue.batches, []) == n.pipeline.queue.batches;
  }

  /** What the caches are after a block with origin 1 was derived on block 1. */
  ghost predicate AfterNextSlot(s: StateView) {
    && s.safeHead.hash == L2Hash(2) && s.safeHead.timestamp == 4
    && s.safeEpoch == Epoch(1, L1Hash(1), 2) && s.EpochByNumber(2) == Some(Epoch(2, L1Hash(2), 4))
  }

  lemma LateSlotAccepted(s: StateView)
    requires AfterNextSlot(s)
    ensures SingleStatus(Rollup(0), s, LateSlot()) == Accept
  {
    SingleAcceptIff(Rollup(0), s, LateSlot());
  }

  /** With no further channel the waiting batch is accepted. */
  lemma LateSlotDerives(now: Node) returns (after: Node)
    requires Inv(Rollup(0), now) && AfterNextSlot(now.state) && AtTip(now, L2Hash(3)) && now.nextL1 == 6
    requires now.pipeline.queue == Queue(map[6 := Single(LateSlot())], [])
    ensures var e := Pull(NoChannel, L2Hash(3));
            Fair(Rollup(0), now, e) && Step(Rollup(0), now, e) == Some(after)
    ensures Derives(Rollup(0), now, after, SingleInput(LateSlot()), L2Hash(3))
  {
    LateSlotAccepted(now.state);
    CandidatesKeyed(Rollup(0), now, NoChannel);
    assert Candidates(Rollup(0), now, NoChannel) == now.pipeline.queue.batches;
    hide Inv, Candidates, AtTip, Derives, SingleStatus, Step, Rollup;
    after := DerivesSingle(Rollup(0), now, NoChannel, LateSlot(), L2Hash(3));
  }

  lemma TipAfter(cfg: Config, n: Node, n': Node, input: BlockInput, hash: Hash, hash': Hash)
    requires Inv(cfg, n) && AtTip(n, hash') && hash != hash' && input.epoch < |n.l1| && Derives(cfg, n, n', input, hash)
    ensures AtTip(n', hash')
  {
    assert InTree(n.driven.engine.blocks, n.driven.heads.safeHead);
  }

  /** The node after the first block, on which the second can be derived. */
  lemma AfterFirst(now: Node, after: Node)
    requires Inv(Rollup(0), now) && Inv(Rollup(0), after) && AtTip(now, L2Hash(2)) && AtTip(now, L2Hash(3))
    requires now.l1 == L1Chain(6, []) && now.lo == 0 && now.nextL1 == 6 && now.state.safeHead == Header(1)
    requires now.pipeline.epochHash == L1Hash(0) && now.unfinalized == [] && now.finalizedL1 == 0
    requires Derives(Rollup(0), now, after, SingleInput(NextSlotBatch()), L2Hash(2))
    ensures AfterNextSlot(after.state) && AtTip(after, L2Hash(3)) && after.nextL1 == 6 && after.lo == 0
    ensures after.l1 == now.l1 && after.pipeline.epochHash == L1Hash(1) && after.finalizedL1 == 0
    ensures after.state.safeHead.number == 2
    ensures |after.unfinalized| == 1 && after.unfinalized[0].head.number == 2
    ensures after.unfinalized[0].inclusion == 5 && after.unfinalized[0].seqNumber == 0
  {
    HashesDiffer(0, 1);
    HashesDiffer(2, 3);
    TipAfter(Rollup(0), now, after, SingleInput(NextSlotBatch()), L2Hash(2), L2Hash(3));
    StateAfter(Rollup(0), now, after, SingleInput(NextSlotBatch()), L2Hash(2));
    WindowAfter(now, after);
    hide Inv, AtTip;
  }

  lemma WindowAfter(now: Node, after: Node)
    requires Inv(Rollup(0), after) && after.l1 == L1Chain(6, []) && after.lo == 0 && after.nextL1 == 6
    ensures after.state.EpochByNumber(2) == Some(Epoch(2, L1Hash(2), 4))
  {
    EpochByNumberExact(after.state, after.l1, after.lo, after.nextL1, 2);
  }

  lemma HeadAfter(cfg: Config, n: Node, n': Node, input: BlockInput, hash: Hash)
    requires Inv(cfg, n) && Inv(cfg, n') && input.epoch < |n.l1| && Derives(cfg, n, n', input, hash)
    ensures n'.state.safeHead.hash == hash && n'.state.safeEpoch == EpochOf(n.l1[input.epoch])
    ensures n'.state.safeHead.number == n.state.safeHead.number + 1
    ensures n'.state.safeHead == Last(n'.chain).info
  {
  }

  lemma TimeAfter(cfg: Config, n: Node, n': Node)
    requires Inv(cfg, n) && Inv(cfg, n') && n'.state.safeHead.number == n.state.safeHead.number + 1
    ensures n'.state.safeHead.timestamp == n.state.safeHead.timestamp + cfg.blocktime
  {
    StepTimes(cfg.blocktime, n'.state.safeHead.number - cfg.genesisNumber);
  }

  lemma WaitingAfter(cfg: Config, n: Node, n': Node, input: BlockInput, hash: Hash)
    requires input.epoch < |n.l1| && Derives(cfg, n, n', input, hash)
    ensures |n'.unfinalized| == |n.unfinalized| + 1 && n'.unfinalized[..|n.unfinalized|] == n.unfinalized
    ensures var u := n'.unfinalized[|n.unfinalized|];
            && u.head == Last(n'.chain).info && u.inclusion == input.l1InclusionBlock
            && u.seqNumber == NextSequence(n.pipeline.sequenceNumber, n.pipeline.epochHash, n.l1[input.epoch].blockInfo.hash)
    ensures n'.l1 == n.l1 && n'.finalizedL1 == n.finalizedL1
  {
  }

  lemma StateAfter(cfg: Config, n: Node, n': Node, input: BlockInput, hash: Hash)
    requires Inv(cfg, n) && Inv(cfg, n') && input.epoch < |n.l1| && Derives(cfg, n, n', input, hash)
    ensures n'.state.safeHead.hash == hash && n'.state.safeEpoch == EpochOf(n.l1[input.epoch])
    ensures n'.state.safeHead.number == n.state.safeHead.number + 1
    ensures n'.state.safeHead.timestamp == n.state.safeHead.timestamp + cfg.blocktime
    ensures n'.l1 == n.l1 && n'.finalizedL1 == n.finalizedL1
    ensures |n'.unfinalized| == |n.unfinalized| + 1 && n'.unfinalized[..|n.unfinalized|] == n.unfinalized
    ensures var u := n'.unfinalized[|n.unfinalized|];
            && u.head == n'.state.safeHead && u.inclusion == input.l1InclusionBlock
            && u.seqNumber == NextSequence(n.pipeline.sequenceNumber, n.pipeline.epochHash, n.l1[input.epoch].blockInfo.hash)
  {
    hide Inv, Derives;
    HeadAfter(cfg, n, n', input, hash);
    TimeAfter(cfg, n, n');
    WaitingAfter(cfg, n, n', input, hash);
  }

  /** Two first blocks of epochs wait for finality, and the later one overtakes the earlier. */
  ghost predicate Disordered(n: Node) {
    && |n.unfinalized| == 2 && n.finalizedL1 == 0
    && n.unfinalized[0].head.number == 2 && n.unfinalized[0].inclusion == 5 && n.unfinalized[0].seqNumber == 0
    && n.unfinalized[1].head.number == 3 && n.unfinalized[1].inclusion == 3 && n.unfinalized[1].seqNumber == 0
  }

  lemma DisorderedIsNotRecoverable(n: Node)
    requires Disordered(n)
    ensures !Recoverable(n.unfinalized, n.finalizedL1)
  {
    var u, v := n.unfinalized[0], n.unfinalized[1];
    assert Overtakes(u, v, 0);
    forall w | w in n.unfinalized ensures !Shields(u, v, w, 0) {
    }
  }

  /** The node after six deliveries and the two pulls that derive both blocks. */
  lemma DerivesBoth(n: Node, now: Node) returns (n1: Node, n2: Node, n3: Node)
    requires Delivered(0, 6, [], 0, 6, n, now)
    ensures var e := Pull(Decoded([Single(LateSlot())]), L2Hash(2));
            ValidConfig(Rollup(0)) && Fair(Rollup(0), now, e) && Step(Rollup(0), now, e) == Some(n1)
    ensures var e := Pull(Decoded([Single(NextSlotBatch())]), L2Hash(2));
            Fair(Rollup(0), n1, e) && Step(Rollup(0), n1, e) == Some(n2)
    ensures var e := Pull(NoChannel, L2Hash(3));
            Fair(Rollup(0), n2, e) && Step(Rollup(0), n2, e) == Some(n3)
    ensures Disordered(n3)
  {
    hide Delivered, AfterGenesis, AtTip, Derives, Step, Fair, Inv, Start, AfterNextSlot, L1Chain;
    var cfg := Rollup(0);
    StartRun(0, 6, [], 0, 6, n, now);
    StartFacts(0, 6, [], 0, 6, n, now, L2Hash(2));
    StartFacts(0, 6, [], 0, 6, n, now, L2Hash(3));
    SixDelivered(n, now);
    n1 := LateSlotWaits(now);
    StepKeeps(cfg, now, Pull(Decoded([Single(LateSlot())]), L2Hash(2)));
    TipKept(now, n1, L2Hash(2));
    TipKept(now, n1, L2Hash(3));
    n2 := NextSlotDerives(n1);
    StepKeeps(cfg, n1, Pull(Decoded([Single(NextSlotBatch())]), L2Hash(2)));
    AfterFirst(n1, n2);
    n3 := LateSlotDerives(n2);
    StepKeeps(cfg, n2, Pull(NoChannel, L2Hash(3)));
    AfterSecond(n2, n3);
  }

  lemma SixDelivered(n: Node, now: Node)
    requires Delivered(0, 6, [], 0, 6, n, now)
    ensures AfterGenesis(now.state, 6) && now.state.currentEpochNum == 5 && now.lo == 0 && now.state.safeHead == Header(1)
  {
    DeliveredAfterGenesis(6, [], 6, n, now);
  }

  lemma TipKept(n: Node, n': Node, hash: Hash)
    requires AtTip(n, hash) && n'.driven == n.driven
    ensures AtTip(n', hash)
  {
  }

  lemma AfterSecond(n2: Node, n3: Node)
    requires Inv(Rollup(0), n2) && Inv(Rollup(0), n3) && n2.l1 == L1Chain(6, []) && n2.finalizedL1 == 0
    requires n2.pipeline.epochHash == L1Hash(1) && n2.state.safeHead.number == 2
    requires |n2.unfinalized| == 1 && n2.unfinalized[0].head.number == 2
    requires n2.unfinalized[0].inclusion == 5 && n2.unfinalized[0].seqNumber == 0
    requires Derives(Rollup(0), n2, n3, SingleInput(LateSlot()), L2Hash(3))
    ensures Disordered(n3)
  {
    HashesDiffer(1, 2);
    StateAfter(Rollup(0), n2, n3, SingleInput(LateSlot()), L2Hash(3));
    assert n3.unfinalized[0] == n3.unfinalized[..1][0];
  }

  /**
   Finality moves back in a fair run from a start at genesis in which L1 finality only rises. A
   batch for the block after next is included in L1 block 3 and waits; the batch for the next
   block is included in L1 block 5. When L1 block 3 is final, L2 block 3 becomes finalized, and
   when L1 block 5 is final, L2 block 2 does.
   */
  lemma FinalityMovesBackInRun() returns (n: Node, first: seq<Event>, rest: seq<Event>)
    ensures Init(Rollup(0), n) && FairRun(Rollup(0), n, first + rest) && rest == Round(5)
    ensures Run(Rollup(0), n, first).Some? && Run(Rollup(0), n, first + rest).Some?
    ensures Run(Rollup(0), n, first).value.finalizedL1 == 3
    ensures FinalizedNumber(Run(Rollup(0), n, first).value) == 3
    ensures FinalizedNumber(Run(Rollup(0), n, first + rest).value) == 2
  {
    hide FairRun, Run, Init, Disordered, Rollup;
    var events, n3;
    n, events, n3 := DisorderedReached();
    rest := Round(5);
    first := events + Round(3);
    FallsBack(n3);
    RunConcat(Rollup(0), n, events, Round(3));
    RunConcat(Rollup(0), n, events, Round(3) + rest);
    assert first + rest == events + (Round(3) + rest);
  }

  /** A fair run from a start at genesis comes to a disordered list. */
  lemma DisorderedReached() returns (n: Node, events: seq<Event>, n3: Node)
    ensures Init(Rollup(0), n) && FairRun(Rollup(0), n, events) && Run(Rollup(0), n, events) == Some(n3)
    ensures Disordered(n3) && !Recoverable(n3.unfinalized, n3.finalizedL1)
  {
    hide Init, FairRun, Run, Step, Fair, Delivered, Inv, Start, Deliveries, Disordered, Recoverable;
    var now, n1, n2;
    n, now := DeliverFrom(0, 6, [], 0, 6);
    StartRun(0, 6, [], 0, 6, n, now);
    n1, n2, n3 := DerivesBoth(n, now);
    DisorderedIsNotRecoverable(n3);
    var e1 := Pull(Decoded([Single(LateSlot())]), L2Hash(2));
    var e2 := Pull(Decoded([Single(NextSlotBatch())]), L2Hash(2));
    var e3 := Pull(NoChannel, L2Hash(3));
    GoesOn(Rollup(0), n, Deliveries(6), now, e1, n1);
    GoesOn(Rollup(0), n, Deliveries(6) + [e1], n1, e2, n2);
    GoesOn(Rollup(0), n, Deliveries(6) + [e1] + [e2], n2, e3, n3);
    events := Deliveries(6) + [e1] + [e2] + [e3];
  }

  /** L1 becomes final up to t, and the driver finalizes. */
  function Round(t: nat): seq<Event> { [FinalityUpdate(t), UpdateFinalized] }

  lemma RoundRuns(cfg: Config, n: Node, t: nat)
    requires ValidConfig(cfg)
    ensures FairRun(cfg, n, Round(t)) && Run(cfg, n, Round(t)) == Some(FinalizedUpTo(n, t))
  {
    hide FinalizeStep;
    var e1 := FinalityUpdate(t);
    assert [] + [e1] == [e1] && [e1] + [UpdateFinalized] == Round(t);
    GoesOn(cfg, n, [], n, e1, n.(finalizedL1 := t));
    GoesOn(cfg, n, [e1], n.(finalizedL1 := t), UpdateFinalized, FinalizedUpTo(n, t));
  }

  lemma FallsBack(n: Node)
    requires Disordered(n)
    ensures ValidConfig(Rollup(0)) && FairRun(Rollup(0), n, Round(3)) && FairRun(Rollup(0), n, Round(3) + Round(5))
    ensures Run(Rollup(0), n, Round(3)).Some? && Run(Rollup(0), n, Round(3) + Round(5)).Some?
    ensures Run(Rollup(0), n, Round(3)).value.finalizedL1 == 3 && FinalizedNumber(Run(Rollup(0), n, Round(3)).value) == 3
    ensures FinalizedNumber(Run(Rollup(0), n, Round(3) + Round(5)).value) == 2
  {
    hide FinalizedUpTo, Disordered, Round, FairRun, Run;
    RollupValid(0);
    var n1 := FinalizedUpTo(n, 3);
    RoundRuns(Rollup(0), n, 3);
    RoundRuns(Rollup(0), n1, 5);
    RunConcat(Rollup(0), n, Round(3), Round(5));
    RoundsFinalize(n);
  }

  lemma RoundsFinalize(n: Node)
    requires Disordered(n)
    ensures FinalizedUpTo(n, 3).finalizedL1 == 3 && FinalizedNumber(FinalizedUpTo(n, 3)) == 3
    ensures FinalizedNumber(FinalizedUpTo(FinalizedUpTo(n, 3), 5)) == 2
  {
    var u, v := n.unfinalized[0], n.unfinalized[1];
    assert n.unfinalized == [u, v] && [u, v][..1] == [u] && [u][..0] == [];
    assert LastFinal([u, v], 3) == Some(v) && StillUnfinalized([u], 3) == [u];
    assert StillUnfinalized([u, v], 3) == [u];
    assert LastFinal([u], 5) == Some(u);
  }
}
