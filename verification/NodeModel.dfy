/**
 The whole node as a state machine: the derivation caches, the pipeline, the engine's heads
 and the driver's lists (src/driver/mod.rs), together with the L1 chain that is reported to
 it and the L2 chain derived so far.
 */
module NodeModel {
  import opened Base
  import opened Types
  import opened DerivationState
  import opened BatchQueue
  import opened BatchSafety
  import opened Attributes
  import opened BlockTree
  import opened ForkChoice

  /** A block of the safe chain, and what it was derived from. */
  datatype Derived = Derived(info: BlockInfo, epoch: Epoch, inclusion: nat, sequenceNumber: nat, transactions: seq<Transaction>)

  /** An entry of the driver's list of blocks waiting for L1 finality. */
  datatype Unfinalized = Unfinalized(head: BlockInfo, epoch: Epoch, inclusion: nat, seqNumber: nat)

  /**
   chain is the safe chain, ending at the safe head; the blocks up to index base were there
   when the node started. l1 is the L1 chain the watcher reports, nextL1 the next of its
   blocks to be delivered and lo the lowest that is still cached.
   */
  datatype Node = Node(
    l1: seq<L1Info>,
    nextL1: nat,
    lo: nat,
    state: StateView,
    pipeline: Pipeline,
    driven: Driven,
    unfinalized: seq<Unfinalized>,
    finalizedL1: nat,
    futureUnsafe: seq<L2Block>,
    chain: seq<Derived>,
    base: nat)

  datatype Event =
    | L1Extends(info: L1Info)
    | NewBlock
    | L1Reorg(l1: seq<L1Info>)
    | FinalityUpdate(number: nat)
    | SyncState
    | Pull(read: ChannelRead, hash: Hash)
    | AdvanceUnsafe(arrivals: seq<L2Block>, answer: GossipAnswer)
    | UpdateFinalized

  /** Where the L1 watcher restarts. */
  function L1StartBlock(epochNumber: nat, channelTimeout: nat): nat {
    SubSaturate(epochNumber, channelTimeout)
  }

  /** The transactions of a block of the engine. */
  function BlockTransactions(e: Engine, hash: Hash): seq<Transaction> {
    if hash in e.blocks then e.blocks[hash].transactions else []
  }

  /** The safe chain up to the block with the given number. */
  function ChainUpTo(chain: seq<Derived>, number: nat): seq<Derived> {
    if chain != [] && chain[0].info.number <= number < chain[0].info.number + |chain|
    then chain[..number - chain[0].info.number + 1] else chain
  }

  // ------------------------------------------------------------------ steps of the driver

  ghost function NewBlockStep(cfg: Config, n: Node): Node
    requires ValidConfig(cfg) && n.nextL1 < |n.l1|
  {
    n.(state := n.state.WithL1Info(cfg, n.l1[n.nextL1]),
    lo := WindowStart(n.state, cfg, n.lo, n.nextL1),
    nextL1 := n.nextL1 + 1)
  }

  function ReorgStep(cfg: Config, n: Node, l1: seq<L1Info>): Node {
    var heads := n.driven.heads;
    var start := L1StartBlock(heads.finalizedEpoch.number, cfg.channelTimeout);
    n.(l1 := l1, nextL1 := start, lo := start,
    unfinalized := [],
    state := n.state.Purged(heads.finalizedHead, heads.finalizedEpoch),
    pipeline := Pipeline(Queue(map[], []), 0, heads.finalizedEpoch.hash),
    driven := n.driven.(heads := heads.Reorged()),
    chain := ChainUpTo(n.chain, heads.finalizedHead.number))
  }

  function SyncStep(n: Node): Node {
    n.(state := n.state.WithSafeHead(n.driven.heads.safeHead, n.driven.heads.safeEpoch))
  }

  /** The node with the new safe head that the engine made of some attributes. */
  function Advanced(n: Node, p: Pipeline, a: PayloadAttributes, driven: Driven): Node {
    var head, epoch := driven.heads.safeHead, driven.heads.safeEpoch;
    n.(pipeline := p, driven := driven, state := n.state.WithSafeHead(head, epoch),
    unfinalized := n.unfinalized + [Unfinalized(head, epoch, a.l1InclusionBlock, a.seqNumber)],
    chain := n.chain + [Derived(head, epoch, a.l1InclusionBlock, a.seqNumber, BlockTransactions(driven.engine, head.hash))])
  }

  /** What the driver does with what the pipeline yields. None ends the run. */
  function AfterPull(cfg: Config, n: Node, p: Pipeline, outcome: PipelineOutcome, hash: Hash): Option<Node>
    requires cfg.blocktime > 0
  {
    match outcome
    case NoAttributes => Some(n.(pipeline := p))
    case PipelineAbort => None
    case Attrs(attributes) =>
      match AttributesHandled(n.driven, cfg.blocktime, attributes, hash)
      case None => None
      case Some(driven) => Some(Advanced(n, p, attributes, driven))
  }

  /** A pull of the pipeline that may hand attributes to the engine. */
  ghost function PullStep(cfg: Config, n: Node, read: ChannelRead, hash: Hash): Option<Node>
    requires ValidConfig(cfg) && Keyed(cfg, n.pipeline.queue.batches) && ValidRead(read)
  {
    var (pipeline, outcome) := NextAttributes(cfg, n.state, n.pipeline, read);
    AfterPull(cfg, n, pipeline, outcome, hash)
  }

  /** Blocks from gossip that are above the unsafe head, and not too far. */
  function Retained(blocks: seq<L2Block>, synced: nat): seq<L2Block> {
    if blocks == [] then []
    else
      (if synced < blocks[0].info.number < synced + 1024 then [blocks[0]] else []) + Retained(blocks[1..], synced)
  }

  function FindChild(blocks: seq<L2Block>, parent: Hash): Option<L2Block> {
    if blocks == [] then None
    else if blocks[0].info.parentHash == parent then Some(blocks[0])
    else FindChild(blocks[1..], parent)
  }

  function UnsafeStep(n: Node, arrivals: seq<L2Block>, answer: GossipAnswer): Node {
    var heads := n.driven.heads;
    var future := Retained(n.futureUnsafe + arrivals, heads.unsafeHead.number);
    match FindChild(future, heads.unsafeHead.hash)
    case None => n.(futureUnsafe := future)
    case Some(block) => n.(futureUnsafe := future, driven := GossipHandled(n.driven, block, answer))
  }

  /** A block whose epoch starts with it and whose data is in finalized L1 blocks. */
  predicate CanFinalize(u: Unfinalized, finalizedL1: nat) {
    u.inclusion <= finalizedL1 && u.seqNumber == 0
  }

  function LastFinal(blocks: seq<Unfinalized>, finalizedL1: nat): Option<Unfinalized> {
    if blocks == [] then None
    else if CanFinalize(blocks[|blocks| - 1], finalizedL1) then Some(blocks[|blocks| - 1])
    else LastFinal(blocks[..|blocks| - 1], finalizedL1)
  }

  function StillUnfinalized(blocks: seq<Unfinalized>, finalizedL1: nat): seq<Unfinalized> {
    if blocks == [] then []
    else
      StillUnfinalized(blocks[..|blocks| - 1], finalizedL1)
      + if blocks[|blocks| - 1].inclusion > finalizedL1 then [blocks[|blocks| - 1]] else []
  }

  function FinalizeStep(n: Node): Node {
    var heads := n.driven.heads;
    var heads' :=
      match LastFinal(n.unfinalized, n.finalizedL1)
      case None => heads
      case Some(u) => heads.(finalizedHead := u.head, finalizedEpoch := u.epoch);
    n.(driven := n.driven.(heads := heads'), unfinalized := StillUnfinalized(n.unfinalized, n.finalizedL1))
  }

  ghost function Step(cfg: Config, n: Node, e: Event): Option<Node>
    requires ValidConfig(cfg)
  {
    match e
    case L1Extends(info) => Some(n.(l1 := n.l1 + [info]))
    case NewBlock => if n.nextL1 < |n.l1| then Some(NewBlockStep(cfg, n)) else None
    case L1Reorg(l1) => Some(ReorgStep(cfg, n, l1))
    case FinalityUpdate(number) => Some(n.(finalizedL1 := number))
    case SyncState => Some(SyncStep(n))
    case Pull(read, hash) =>
      if Keyed(cfg, n.pipeline.queue.batches) && ValidRead(read) then PullStep(cfg, n, read, hash) else None
    case AdvanceUnsafe(arrivals, answer) => Some(UnsafeStep(n, arrivals, answer))
    case UpdateFinalized => Some(FinalizeStep(n))
  }

  // -------------------------------------------------------------------- the environment

  /** A single batch that names the safe epoch's L1 block, though that is not delivered yet. */
  ghost predicate NamesUndelivered(n: Node, b: Batch) {
    n.nextL1 <= n.state.safeEpoch.number && b.Single? && b.single.epochHash == n.state.safeEpoch.hash
  }

  /**
   Batcher data comes with the delivery of the L1 block that includes it, and cannot name the
   hash of that block or a later one.
   */
  ghost predicate ReadDelivered(n: Node, read: ChannelRead) {
    read.Decoded? ==> forall i :: 0 <= i < |read.batches| ==> !NamesUndelivered(n, read.batches[i])
  }

  /**
   What the outside world owes the node: L1 blocks have distinct hashes, an L1 reorg leaves
   the finalized epoch's block and everything below it alone, batches are as decoding gives
   them and name L1 blocks that are delivered, spans start on the L2 schedule, and the engine
   does not refuse the forkchoice of a block it has taken.
   */
  ghost predicate Fair(cfg: Config, n: Node, e: Event)
    requires ValidConfig(cfg)
  {
    match e
    case L1Extends(info) => ValidL1(n.l1 + [info])
    case L1Reorg(l1) =>
      var last := n.driven.heads.finalizedEpoch.number + 1;
      ValidL1(l1) && last <= |l1| && last <= |n.l1| && l1[..last] == n.l1[..last]
    case Pull(read, _) => ValidRead(read) && ReadAligned(cfg, read) && ReadDelivered(n, read)
    case AdvanceUnsafe(_, answer) => !answer.ForkchoiceRejected?
    case _ => true
  }

  /** The node after some events, if it is still running. */
  ghost function Run(cfg: Config, n: Node, events: seq<Event>): Option<Node>
    requires ValidConfig(cfg)
  {
    if events == [] then Some(n)
    else
      match Run(cfg, n, events[..|events| - 1])
      case None => None
      case Some(before) => Step(cfg, before, events[|events| - 1])
  }

  ghost predicate FairRun(cfg: Config, n: Node, events: seq<Event>)
    requires ValidConfig(cfg)
  {
    events == [] || (
      && FairRun(cfg, n, events[..|events| - 1])
      && match Run(cfg, n, events[..|events| - 1])
         case None => true
         case Some(before) => Fair(cfg, before, events[|events| - 1]))
  }

  lemma RunAppend(cfg: Config, n: Node, events: seq<Event>, e: Event)
    requires ValidConfig(cfg)
    ensures Run(cfg, n, events + [e]) == match Run(cfg, n, events) case None => None case Some(now) => Step(cfg, now, e)
    ensures FairRun(cfg, n, events + [e])
            <==> FairRun(cfg, n, events) && match Run(cfg, n, events) case None => true case Some(now) => Fair(cfg, now, e)
  {
    assert (events + [e])[..|events|] == events;
  }

  /** Running two sequences of events one after the other is running their concatenation, and as fair. */
  lemma {:induction false} RunConcat(cfg: Config, n: Node, a: seq<Event>, b: seq<Event>)
    requires ValidConfig(cfg)
    ensures Run(cfg, n, a + b) == match Run(cfg, n, a) case None => None case Some(now) => Run(cfg, now, b)
    ensures FairRun(cfg, n, a + b)
            <==> FairRun(cfg, n, a) && match Run(cfg, n, a) case None => true case Some(now) => FairRun(cfg, now, b)
    decreases |b|
  {
    hide Fair, Step;
    if b == [] {
      assert a + b == a;
    } else {
      var init, last := b[..|b| - 1], b[|b| - 1];
      RunConcat(cfg, n, a, init);
      assert a + b == (a + init) + [last];
      RunAppend(cfg, n, a + init, last);
    }
  }
}
