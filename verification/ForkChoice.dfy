/** Fork choice: how the node moves the engine's heads (src/driver/engine_driver.rs). */
module ForkChoice {
  import opened Base
  import opened Types
  import opened BlockTree

  datatype Heads = Heads(
    unsafeHead: BlockInfo,
    safeHead: BlockInfo,
    safeEpoch: Epoch,
    finalizedHead: BlockInfo,
    finalizedEpoch: Epoch)
  {
    function Forkchoice(): ForkchoiceState {
      ForkchoiceState(unsafeHead.hash, safeHead.hash, finalizedHead.hash)
    }

    function WithSafeHead(head: BlockInfo, epoch: Epoch, reorgUnsafe: bool): Heads {
      this.(
      safeHead := head,
      safeEpoch := if safeHead != head then epoch else safeEpoch,
      unsafeHead := if reorgUnsafe || head.number > unsafeHead.number then head else unsafeHead)
    }

    function Reorged(): Heads {
      this.(unsafeHead := finalizedHead, safeHead := finalizedHead, safeEpoch := finalizedEpoch)
    }
  }

  /** The driver's heads and the engine it drives. */
  datatype Driven = Driven(heads: Heads, engine: Engine)

  /** How the engine answers a block from gossip. */
  datatype GossipAnswer = PayloadRejected | ForkchoiceRejected | ForkchoiceAccepted

  /** Division of signed integers that rounds toward zero. */
  function DivTowardZero(a: int, d: int): int
    requires d > 0
  {
    if a >= 0 then a / d else -(-a / d)
  }

  function BlockNumberAt(heads: Heads, blocktime: nat, timestamp: nat): int
    requires blocktime > 0
  {
    heads.finalizedHead.number + DivTowardZero(timestamp - heads.finalizedHead.timestamp, blocktime)
  }

  function BlockAt(d: Driven, blocktime: nat, timestamp: nat): Option<L2Block>
    requires blocktime > 0
  {
    d.engine.BlockAt(BlockNumberAt(d.heads, blocktime, timestamp))
  }

  /** The block is what the attributes would build. */
  predicate ShouldSkip(block: L2Block, attributes: PayloadAttributes) {
    && block.transactions == attributes.transactions
    && block.info.timestamp == attributes.timestamp
    && block.mixHash == attributes.prevRandao
    && block.author == attributes.suggestedFeeRecipient
    && block.gasLimit == attributes.gasLimit
  }

  /**
   The engine builds a block on the unsafe head, the node pushes it and makes it the safe
   and unsafe head. None when the engine refuses, which ends the run.
   */
  function Processed(d: Driven, attributes: PayloadAttributes, hash: Hash): Option<Driven> {
    var fc := d.heads.Forkchoice();
    if fc.head !in d.engine.blocks then None
    else
      var block := d.engine.Payload(fc.head, attributes, hash);
      if !d.engine.CanPush(block) then None
      else
        var heads := d.heads.WithSafeHead(block.info, attributes.epoch, true);
        Some(Driven(heads, d.engine.Built(fc, block).Pushed(block).Accepted(heads.Forkchoice())))
  }

  function Skipped(d: Driven, attributes: PayloadAttributes, block: L2Block): Driven {
    var heads := d.heads.WithSafeHead(block.info, attributes.epoch, false);
    Driven(heads, d.engine.Accepted(heads.Forkchoice()))
  }

  function AttributesHandled(d: Driven, blocktime: nat, attributes: PayloadAttributes, hash: Hash): Option<Driven>
    requires blocktime > 0
  {
    match BlockAt(d, blocktime, attributes.timestamp)
    case Some(block) =>
      if ShouldSkip(block, attributes) then Some(Skipped(d, attributes, block))
      else Processed(d.(heads := d.heads.(unsafeHead := d.heads.safeHead)), attributes, hash)
    case None => Processed(d, attributes, hash)
  }

  function GossipHandled(d: Driven, block: L2Block, answer: GossipAnswer): Driven {
    if answer.PayloadRejected? || !d.engine.CanPush(block) then d
    else
      var heads := d.heads.(unsafeHead := block.info);
      var engine := d.engine.Pushed(block);
      Driven(heads, if answer.ForkchoiceAccepted? then engine.Accepted(heads.Forkchoice())
                    else engine.Rejected(heads.Forkchoice()))
  }

  class EngineDriver {
    var engine: Engine
    const blocktime: nat
    var unsafeHead: BlockInfo
    var safeHead: BlockInfo
    var safeEpoch: Epoch
    var finalizedHead: BlockInfo
    var finalizedEpoch: Epoch

    function GetHeads(): Heads
      reads this
    {
      Heads(unsafeHead, safeHead, safeEpoch, finalizedHead, finalizedEpoch)
    }

    function View(): Driven
      reads this
    {
      Driven(GetHeads(), engine)
    }

    constructor (finalizedHead: BlockInfo, finalizedEpoch: Epoch, engine: Engine, blocktime: nat)
      ensures this.blocktime == blocktime
      ensures View() == Driven(Heads(finalizedHead, finalizedHead, finalizedEpoch, finalizedHead, finalizedEpoch), engine)
    {
      this.engine, this.blocktime := engine, blocktime;
      unsafeHead, safeHead, safeEpoch := finalizedHead, finalizedHead, finalizedEpoch;
      this.finalizedHead, this.finalizedEpoch := finalizedHead, finalizedEpoch;
    }

    method HandleAttributes(attributes: PayloadAttributes, hash: Hash) returns (ok: bool)
      requires blocktime > 0
      modifies this
      ensures ok <==> AttributesHandled(old(View()), blocktime, attributes, hash).Some?
      ensures ok ==> View() == AttributesHandled(old(View()), blocktime, attributes, hash).value
    {
      var block := BlockAt(View(), blocktime, attributes.timestamp);
      match block
      case Some(block) =>
        if ShouldSkip(block, attributes) {
          SkipAttributes(attributes, block);
          ok := true;
        } else {
          unsafeHead := safeHead;
          ok := ProcessAttributes(attributes, hash);
        }
      case None =>
        ok := ProcessAttributes(attributes, hash);
    }

    method ProcessAttributes(attributes: PayloadAttributes, hash: Hash) returns (ok: bool)
      modifies this
      ensures ok <==> Processed(old(View()), attributes, hash).Some?
      ensures ok ==> View() == Processed(old(View()), attributes, hash).value
    {
      var newEpoch := attributes.epoch;
      var forkchoice := GetHeads().Forkchoice();
      if unsafeHead.hash !in engine.blocks {
        return false;
      }
      var payload := engine.Payload(forkchoice.head, attributes, hash);
      engine := engine.Built(forkchoice, payload);
      if !engine.CanPush(payload) {
        return false;
      }
      engine := engine.Pushed(payload);
      UpdateSafeHead(payload.info, newEpoch, true);
      UpdateForkchoice();
      ok := true;
    }

    method SkipAttributes(attributes: PayloadAttributes, block: L2Block)
      modifies this
      ensures View() == Skipped(old(View()), attributes, block)
    {
      UpdateSafeHead(block.info, attributes.epoch, false);
      UpdateForkchoice();
    }

    method UpdateSafeHead(newHead: BlockInfo, newEpoch: Epoch, reorgUnsafe: bool)
      modifies this`safeHead, this`safeEpoch, this`unsafeHead
      ensures GetHeads() == old(GetHeads()).WithSafeHead(newHead, newEpoch, reorgUnsafe)
    {
      if safeHead != newHead {
        safeHead := newHead;
        safeEpoch := newEpoch;
      }
      if reorgUnsafe || safeHead.number > unsafeHead.number {
        unsafeHead := newHead;
      }
    }

    method UpdateForkchoice()
      modifies this`engine
      ensures engine == old(engine).Accepted(GetHeads().Forkchoice())
    {
      engine := engine.Accepted(GetHeads().Forkchoice());
    }

    method HandleUnsafePayload(block: L2Block, answer: GossipAnswer)
      modifies this
      ensures View() == GossipHandled(old(View()), block, answer)
    {
      if answer.PayloadRejected? || !engine.CanPush(block) {
        return;
      }
      engine := engine.Pushed(block);
      unsafeHead := block.info;
      if answer.ForkchoiceRejected? {
        engine := engine.Rejected(GetHeads().Forkchoice());
        return;
      }
      UpdateForkchoice();
    }

    method UpdateFinalized(head: BlockInfo, epoch: Epoch)
      modifies this`finalizedHead, this`finalizedEpoch
      ensures GetHeads() == old(GetHeads()).(finalizedHead := head, finalizedEpoch := epoch)
    {
      finalizedHead := head;
      finalizedEpoch := epoch;
    }

    method Reorg()
      modifies this`unsafeHead, this`safeHead, this`safeEpoch
      ensures GetHeads() == old(GetHeads()).Reorged()
    {
      unsafeHead := finalizedHead;
      safeHead := finalizedHead;
      safeEpoch := finalizedEpoch;
    }
  }
}
