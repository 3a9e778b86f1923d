/**
 Safety of the fork choice: every forkchoice sent is ordered, and every block built from
 derived attributes extends the safe head.
 */
module ForkChoiceSafety {
  import opened Base
  import opened Types
  import opened BlockTree
  import opened ForkChoice

  /** The heads are blocks of the engine, ordered up to the engine's canonical head. */
  ghost predicate HeadsOrdered(d: Driven) {
    var t, h := d.engine.blocks, d.heads;
    && WellFormed(t) && InTree(t, h.finalizedHead) && InTree(t, h.safeHead) && InTree(t, h.unsafeHead)
    && IsAncestor(t, h.finalizedHead.hash, h.safeHead.hash)
    && IsAncestor(t, h.safeHead.hash, h.unsafeHead.hash)
    && IsAncestor(t, h.unsafeHead.hash, d.engine.canonical)
  }

  ghost predicate Ordered(t: Tree, fc: ForkchoiceState) {
    IsAncestor(t, fc.finalized, fc.safe) && IsAncestor(t, fc.safe, fc.head)
  }

  /** A request is ordered, and asks for no block on anything but the safe head. */
  ghost predicate RequestOk(t: Tree, r: Request) {
    Ordered(t, r.fc) && (r.Build? ==> r.block.info.parentHash == r.fc.safe)
  }

  ghost predicate RequestsOk(e: Engine) {
    forall i :: 0 <= i < |e.requests| ==> RequestOk(e.blocks, e.requests[i])
  }

  /** The safe head moved to a child of the old one that is what the attributes ask for. */
  ghost predicate SafeAdvanced(d: Driven, d': Driven, attributes: PayloadAttributes) {
    var head, old_ := d'.heads.safeHead, d.heads.safeHead;
    && head.parentHash == old_.hash && head.number == old_.number + 1
    && head.timestamp == attributes.timestamp
    && d'.heads.safeEpoch == attributes.epoch
    && head.hash in d'.engine.blocks && d'.engine.blocks[head.hash].transactions == attributes.transactions
    && d'.heads.finalizedHead == d.heads.finalizedHead && d'.heads.finalizedEpoch == d.heads.finalizedEpoch
    && Extends(d.engine.blocks, d'.engine.blocks)
  }

  lemma OrderedExtends(t: Tree, t': Tree, fc: ForkchoiceState)
    requires WellFormed(t) && Extends(t, t') && Ordered(t, fc)
    ensures Ordered(t', fc)
  {
    IsAncestorExtends(t, t', fc.finalized, fc.safe);
    IsAncestorExtends(t, t', fc.safe, fc.head);
  }

  lemma RequestsExtend(e: Engine, e': Engine, new_: seq<Request>)
    requires WellFormed(e.blocks) && Extends(e.blocks, e'.blocks) && RequestsOk(e)
    requires e'.requests == e.requests + new_
    requires forall i :: 0 <= i < |new_| ==> RequestOk(e'.blocks, new_[i])
    ensures RequestsOk(e')
  {
    forall i | 0 <= i < |e'.requests| ensures RequestOk(e'.blocks, e'.requests[i]) {
      if i < |e.requests| {
        OrderedExtends(e.blocks, e'.blocks, e.requests[i].fc);
      }
    }
  }

  /** Building on an unsafe head that is the safe head. */
  lemma ProcessedSafe(d: Driven, attributes: PayloadAttributes, hash: Hash)
    requires HeadsOrdered(d) && RequestsOk(d.engine) && d.heads.unsafeHead == d.heads.safeHead
    ensures var r := Processed(d, attributes, hash);
            r.Some? ==> HeadsOrdered(r.value) && RequestsOk(r.value.engine) && SafeAdvanced(d, r.value, attributes)
  {
    var r := Processed(d, attributes, hash);
    if r.Some? {
      var t, fc := d.engine.blocks, d.heads.Forkchoice();
      var block := d.engine.Payload(fc.head, attributes, hash);
      PushKeeps(d.engine, block);
      var t' := r.value.engine.blocks;
      ChildIsDescendant(t', fc.head, hash);
      IsAncestorExtends(t, t', d.heads.finalizedHead.hash, fc.head);
      AncestorTransitive(t', d.heads.finalizedHead.hash, fc.head, hash);
      OrderedExtends(t, t', fc);
      assert d.heads.safeHead != block.info;
      RequestsExtend(d.engine, r.value.engine, [Build(fc, block), Update(r.value.heads.Forkchoice())]);
    }
  }

  /** Taking over the canonical block right above the safe head. */
  lemma SkippedSafe(d: Driven, attributes: PayloadAttributes, block: L2Block)
    requires HeadsOrdered(d) && RequestsOk(d.engine)
    requires d.engine.BlockAt(d.heads.safeHead.number + 1) == Some(block) && ShouldSkip(block, attributes)
    ensures var d' := Skipped(d, attributes, block);
            HeadsOrdered(d') && RequestsOk(d'.engine) && SafeAdvanced(d, d', attributes)
  {
    var t, h, c := d.engine.blocks, d.heads, d.engine.canonical;
    var d' := Skipped(d, attributes, block);
    AncestorTransitive(t, h.safeHead.hash, h.unsafeHead.hash, c);
    var b := AncestorAt(t, c, h.safeHead.number + 1).value;
    ChildOnBranch(t, h.safeHead.hash, c, b);
    AncestorFacts(t, h.unsafeHead.hash, h.safeHead.number);
    AncestorTransitive(t, h.finalizedHead.hash, h.safeHead.hash, b);
    if h.unsafeHead.number > h.safeHead.number {
      AncestorsOrdered(t, b, h.unsafeHead.hash, c);
    }
    RequestsExtend(d.engine, d'.engine, [Update(d'.heads.Forkchoice())]);
  }

  /** With no canonical block above the safe head, the unsafe head is the safe head. */
  lemma NoBlockMeansAtTip(d: Driven)
    requires HeadsOrdered(d) && d.engine.BlockAt(d.heads.safeHead.number + 1) == None
    ensures d.heads.unsafeHead == d.heads.safeHead
  {
    var t, h, c := d.engine.blocks, d.heads, d.engine.canonical;
    AncestorTransitive(t, h.safeHead.hash, h.unsafeHead.hash, c);
    AncestorFacts(t, c, h.safeHead.number);
    AncestorFacts(t, c, h.unsafeHead.number);
    AncestorFacts(t, h.unsafeHead.hash, h.safeHead.number);
    if h.safeHead.number + 1 <= t[c].info.number {
      AncestorAbove(t, c, h.safeHead.number, h.safeHead.number + 1);
      AncestorFacts(t, c, h.safeHead.number + 1);
    }
  }

  /** The slot computed from the finalized head is the one right above the safe head. */
  ghost predicate NextSlot(d: Driven, blocktime: nat, timestamp: nat)
    requires blocktime > 0
  {
    BlockNumberAt(d.heads, blocktime, timestamp) == d.heads.safeHead.number + 1
  }

  /**
   Handling the attributes of the next slot keeps the heads ordered, keeps every request
   ordered and built on the safe head, and moves the safe head to its child; also when no
   block is found there and the unsafe head is not reset.
   */
  lemma AttributesHandledSafe(d: Driven, blocktime: nat, attributes: PayloadAttributes, hash: Hash)
    requires blocktime > 0 && NextSlot(d, blocktime, attributes.timestamp)
    requires HeadsOrdered(d) && RequestsOk(d.engine)
    ensures var r := AttributesHandled(d, blocktime, attributes, hash);
            r.Some? ==> HeadsOrdered(r.value) && RequestsOk(r.value.engine) && SafeAdvanced(d, r.value, attributes)
  {
    var found := BlockAt(d, blocktime, attributes.timestamp);
    if found.Some? && ShouldSkip(found.value, attributes) {
      SkippedSafe(d, attributes, found.value);
    } else if found.Some? {
      var reset := d.(heads := d.heads.(unsafeHead := d.heads.safeHead));
      AncestorTransitive(d.engine.blocks, d.heads.safeHead.hash, d.heads.unsafeHead.hash, d.engine.canonical);
      ProcessedSafe(reset, attributes, hash);
    } else {
      NoBlockMeansAtTip(d);
      ProcessedSafe(d, attributes, hash);
    }
  }

  /** The block has all that the attributes ask for. */
  predicate Agrees(block: L2Block, a: PayloadAttributes) {
    && block.info.timestamp == a.timestamp
    && block.transactions == a.transactions
    && block.mixHash == a.prevRandao
    && block.author == a.suggestedFeeRecipient
    && block.gasLimit == a.gasLimit
  }

  /**
   The block is taken over: it becomes the safe head, the unsafe head stays where it is unless it
   would fall behind, and the engine is sent one forkchoice and is asked to build nothing.
   */
  ghost predicate TakenOver(d: Driven, d': Driven, block: L2Block, epoch: Epoch) {
    var unsafe := if d.heads.unsafeHead.number < block.info.number then block.info else d.heads.unsafeHead;
    && d'.heads == Heads(unsafe, block.info, epoch, d.heads.finalizedHead, d.heads.finalizedEpoch)
    && d'.engine.blocks == d.engine.blocks && d'.engine.canonical == unsafe.hash
    && d'.engine.requests
       == d.engine.requests + [Update(ForkchoiceState(unsafe.hash, block.info.hash, d.heads.finalizedHead.hash))]
  }

  /**
   The block is built on the safe head: the engine is asked for it with the safe head as its
   head, takes it, and it becomes the safe, the unsafe and the canonical head.
   */
  ghost predicate BuiltAnew(d: Driven, d': Driven, block: L2Block, epoch: Epoch) {
    var safe, finalized := d.heads.safeHead, d.heads.finalizedHead;
    && block.info.number == safe.number + 1 && block.info.parentHash == safe.hash
    && d'.heads == Heads(block.info, block.info, epoch, finalized, d.heads.finalizedEpoch)
    && d'.engine.blocks == d.engine.blocks[block.info.hash := block] && d'.engine.canonical == block.info.hash
    && d'.engine.requests
       == d.engine.requests
          + [Build(ForkchoiceState(safe.hash, safe.hash, finalized.hash), block),
             Update(ForkchoiceState(block.info.hash, block.info.hash, finalized.hash))]
  }

  /** The block that the engine makes of some attributes on the given head. */
  function BlockOn(head: BlockInfo, a: PayloadAttributes, hash: Hash): L2Block {
    L2Block(BlockInfo(hash, head.number + 1, head.hash, a.timestamp), a.transactions, a.prevRandao, a.suggestedFeeRecipient, a.gasLimit)
  }

  /** The canonical block of the next slot has all that the attributes ask for. */
  predicate Present(d: Driven, a: PayloadAttributes) {
    var found := d.engine.BlockAt(d.heads.safeHead.number + 1);
    found.Some? && Agrees(found.value, a)
  }

  /**
   What handling the attributes of the next slot does. If the canonical block of that slot agrees
   with them it is taken over, and this never fails; otherwise a block is built anew, which fails
   exactly when the engine has its hash for another block. Either way the new safe block has all
   that the attributes ask for.
   */
  lemma AttributesSettled(d: Driven, blocktime: nat, a: PayloadAttributes, hash: Hash)
    requires blocktime > 0 && NextSlot(d, blocktime, a.timestamp) && HeadsOrdered(d)
    ensures var r := AttributesHandled(d, blocktime, a, hash);
            && (r.None? <==> !Present(d, a) && !d.engine.OwnHash(BlockOn(d.heads.safeHead, a, hash)))
            && (Present(d, a) ==> TakenOver(d, r.value, d.engine.BlockAt(d.heads.safeHead.number + 1).value, a.epoch))
            && (!Present(d, a) && r.Some? ==> BuiltAnew(d, r.value, BlockOn(d.heads.safeHead, a, hash), a.epoch))
            && (r.Some? ==>
                  var h := r.value.heads.safeHead.hash;
                  h in r.value.engine.blocks && Agrees(r.value.engine.blocks[h], a))
  {
    var found := d.engine.BlockAt(d.heads.safeHead.number + 1);
    assert BlockAt(d, blocktime, a.timestamp) == found;
    if Present(d, a) {
      FoundIsAbove(d);
    } else {
      if found.None? {
        NoBlockMeansAtTip(d);
      }
      AncestorTransitive(d.engine.blocks, d.heads.safeHead.hash, d.heads.unsafeHead.hash, d.engine.canonical);
      BuiltOnSafe(d.(heads := d.heads.(unsafeHead := d.heads.safeHead)), a, hash);
    }
  }

  lemma FoundIsAbove(d: Driven)
    requires HeadsOrdered(d) && d.engine.BlockAt(d.heads.safeHead.number + 1).Some?
    ensures var block := d.engine.BlockAt(d.heads.safeHead.number + 1).value;
            && block.info.number == d.heads.safeHead.number + 1
            && block.info.hash in d.engine.blocks && d.engine.blocks[block.info.hash] == block
  {
    AncestorFacts(d.engine.blocks, d.engine.canonical, d.heads.safeHead.number + 1);
  }

  lemma BuiltOnSafe(d: Driven, a: PayloadAttributes, hash: Hash)
    requires HeadsOrdered(d) && d.heads.unsafeHead == d.heads.safeHead
    ensures Processed(d, a, hash).None? <==> !d.engine.OwnHash(BlockOn(d.heads.safeHead, a, hash))
    ensures Processed(d, a, hash).Some? ==> BuiltAnew(d, Processed(d, a, hash).value, BlockOn(d.heads.safeHead, a, hash), a.epoch)
  {
    assert d.engine.Payload(d.heads.safeHead.hash, a, hash) == BlockOn(d.heads.safeHead, a, hash);
  }

  /** The heads with which the engine is asked to build a block. */
  function BuildHeads(d: Driven, blocktime: nat, attributes: PayloadAttributes): Heads
    requires blocktime > 0
  {
    if BlockAt(d, blocktime, attributes.timestamp).Some? then d.heads.(unsafeHead := d.heads.safeHead) else d.heads
  }

  /**
   The forkchoice of a build request is ordered and has the safe head as its head. It is sent
   before the engine answers, so this holds also when the engine refuses and the run ends.
   */
  lemma BuildRequestSafe(d: Driven, blocktime: nat, attributes: PayloadAttributes, hash: Hash)
    requires blocktime > 0 && NextSlot(d, blocktime, attributes.timestamp) && HeadsOrdered(d)
    ensures var heads := BuildHeads(d, blocktime, attributes);
            var found := BlockAt(d, blocktime, attributes.timestamp);
            && Ordered(d.engine.blocks, heads.Forkchoice())
            && heads.unsafeHead == heads.safeHead == d.heads.safeHead
            && (!(found.Some? && ShouldSkip(found.value, attributes)) ==>
                  AttributesHandled(d, blocktime, attributes, hash) == Processed(d.(heads := heads), attributes, hash))
  {
    if BlockAt(d, blocktime, attributes.timestamp) == None {
      NoBlockMeansAtTip(d);
    }
  }

  /** A block from gossip that extends the unsafe head and whose forkchoice is not refused. */
  lemma GossipHandledSafe(d: Driven, block: L2Block, answer: GossipAnswer)
    requires HeadsOrdered(d) && RequestsOk(d.engine)
    requires block.info.parentHash == d.heads.unsafeHead.hash && !answer.ForkchoiceRejected?
    ensures var d' := GossipHandled(d, block, answer);
            && HeadsOrdered(d') && RequestsOk(d'.engine) && Extends(d.engine.blocks, d'.engine.blocks)
            && d'.heads == d.heads.(unsafeHead := d'.heads.unsafeHead)
  {
    if !answer.PayloadRejected? && d.engine.CanPush(block) {
      PushKeeps(d.engine, block);
      var t, t', h := d.engine.blocks, d.engine.Pushed(block).blocks, d.heads;
      ChildIsDescendant(t', h.unsafeHead.hash, block.info.hash);
      IsAncestorExtends(t, t', h.finalizedHead.hash, h.safeHead.hash);
      IsAncestorExtends(t, t', h.safeHead.hash, h.unsafeHead.hash);
      AncestorTransitive(t', h.safeHead.hash, h.unsafeHead.hash, block.info.hash);
      var d' := GossipHandled(d, block, answer);
      RequestsExtend(d.engine, d'.engine, [Update(d'.heads.Forkchoice())]);
    }
  }

  // ---------------------------------------------------------- when the guarantee fails

  /**
   In any state, a block built from attributes extends the safe head exactly when a block
   was found at its slot (the unsafe head is then reset) or the unsafe head is the safe head.
   */
  lemma BuiltOnSafeIff(d: Driven, blocktime: nat, attributes: PayloadAttributes, hash: Hash)
    requires blocktime > 0
    requires AttributesHandled(d, blocktime, attributes, hash).Some?
    requires var found := BlockAt(d, blocktime, attributes.timestamp); !(found.Some? && ShouldSkip(found.value, attributes))
    ensures var e := AttributesHandled(d, blocktime, attributes, hash).value.engine;
            && |e.requests| == |d.engine.requests| + 2
            && e.requests[|d.engine.requests|].Build?
            && e.requests[|d.engine.requests|].fc.safe == d.heads.safeHead.hash
            && (e.requests[|d.engine.requests|].block.info.parentHash == d.heads.safeHead.hash
                <==> BlockAt(d, blocktime, attributes.timestamp).Some? || d.heads.unsafeHead.hash == d.heads.safeHead.hash)
  {
  }

  /** A node at genesis whose engine has just the genesis block. */
  function AtGenesis(genesis: L2Block, epoch: Epoch): Driven {
    Driven(Heads(genesis.info, genesis.info, epoch, genesis.info, epoch),
           Engine(map[genesis.info.hash := genesis], genesis.info.hash, []))
  }

  /**
   A refused forkchoice for a gossip block leaves the unsafe head off the canonical chain,
   because the refusal is discarded. From genesis, the next derived block is then built on
   the gossip block and not on the safe head.
   */
  lemma RefusedGossipBreaksBuild(genesis: L2Block, epoch: Epoch, gossip: L2Block, blocktime: nat, attributes: PayloadAttributes, hash: Hash)
    requires blocktime > 0 && genesis.info.parentHash != genesis.info.hash
    requires genesis.info.parentHash != gossip.info.hash && genesis.info.parentHash != hash
    requires gossip.info.parentHash == genesis.info.hash && gossip.info.number == genesis.info.number + 1
    requires gossip.info.hash != genesis.info.hash && hash != genesis.info.hash && hash != gossip.info.hash
    requires attributes.timestamp == genesis.info.timestamp + blocktime
    ensures HeadsOrdered(AtGenesis(genesis, epoch))
    ensures var d := GossipHandled(AtGenesis(genesis, epoch), gossip, ForkchoiceRejected);
            var r := AttributesHandled(d, blocktime, attributes, hash);
            && r.Some? && r.value.heads.safeHead.parentHash == gossip.info.hash != d.heads.safeHead.hash
            && !RequestsOk(r.value.engine)
  {
    var d := GossipHandled(AtGenesis(genesis, epoch), gossip, ForkchoiceRejected);
    assert AtGenesis(genesis, epoch).engine.CanPush(gossip);
    assert d.heads.unsafeHead == gossip.info;
    assert BlockAt(d, blocktime, attributes.timestamp) == None;
    BuiltOnSafeIff(d, blocktime, attributes, hash);
    var r := AttributesHandled(d, blocktime, attributes, hash);
    assert !RequestOk(r.value.engine.blocks, r.value.engine.requests[1]);
  }
}
